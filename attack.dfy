/** BotStarter.getAttackTransferMoves: for every owned region, the ordered
    three-rule decision over its neighbours with a running count of the
    troops still present; then, for every visible region whose neighbours are
    all the player's, the split of its spare troops among them. */
module Attacking {
  import opened JavaInt
  import opened Regions
  import opened Moves
  import opened Risk

  /** WORLD_DOMINANCE_LIMIT */
  const WorldDominanceLimit: int := 30

  /** No region holds a negative number of armies (the game never reports one). */
  predicate NonNegativeArmies(board: Board)
  {
    forall id :: id in board ==> board[id].armies >= 0
  }

  /** Which branch of the decision fires for one (origin, target) pair. */
  datatype Rule = Combo | Defend | Expand | Hold

  /** The three rules in order, the first that applies winning:
      (a) combo attack on an opponent region,
      (b) attack on an opponent region from a threatened origin when seven
          tenths of the present troops, truncated, exceed the estimate,
      (c) expansion into a region not the player's from an unthreatened
          origin holding more than 2, when the target has under six tenths of
          the present troops. */
  function ChooseRule(board: Board, me: string, opponentName: string, origin: RegionId, target: RegionId, present: int): (rule: Rule)
    requires Closed(board) && origin in board && target in board
    ensures var comboTrigger := board[target].owner == opponentName && ComboChance(board, me, origin, target);
      rule == Combo <==> comboTrigger
    ensures var defendTrigger := board[target].owner == opponentName &&
        SomeOwnedBy(board, board[origin].neighbors, opponentName) &&
        EstimateAttackingTroops(board[target].armies) < TruncDiv(7 * present, 10);
      rule == Defend <==> rule != Combo && defendTrigger
    ensures var expandTrigger := board[target].owner != me &&
        !SomeOwnedBy(board, board[origin].neighbors, opponentName) &&
        present > 2 && 5 * board[target].armies < 3 * present;
      rule == Expand <==> rule != Combo && rule != Defend && expandTrigger
    ensures rule == Hold <==>
      !(board[target].owner == opponentName && ComboChance(board, me, origin, target)) &&
      !(board[target].owner == opponentName && SomeOwnedBy(board, board[origin].neighbors, opponentName) &&
        EstimateAttackingTroops(board[target].armies) < TruncDiv(7 * present, 10)) &&
      !(board[target].owner != me && !SomeOwnedBy(board, board[origin].neighbors, opponentName) &&
        present > 2 && 5 * board[target].armies < 3 * present)
  {
    var threatened := SomeOwnedBy(board, board[origin].neighbors, opponentName);
    if board[target].owner == opponentName && ComboChance(board, me, origin, target) then Combo
    else if board[target].owner == opponentName && threatened
      && TruncDiv(7 * present, 10) > EstimateAttackingTroops(board[target].armies) then Defend
    else if board[target].owner != me && !threatened && present > 2
      && 5 * board[target].armies < 3 * present then Expand
    else Hold
  }

  /** Troops a rule commits: `(int) (presentTroops * 0.8)` for (a) and (c),
      the estimate for (b). */
  function Committed(rule: Rule, present: int, estimate: int): (c: int)
    ensures rule == Hold ==> c == 0
    ensures rule == Defend ==> c == estimate
    ensures (rule == Combo || rule == Expand) && present >= 0 ==> 5 * c <= 4 * present < 5 * (c + 1)
  {
    match rule
    case Combo => TruncDiv(4 * present, 5)
    case Defend => estimate
    case Expand => TruncDiv(4 * present, 5)
    case Hold => 0
  }

  /** One decision never commits more than is present and never drives the
      count negative; (c) commits something and leaves at least one unit. */
  lemma StepBounds(rule: Rule, present: int, estimate: int)
    requires present >= 0 && estimate >= 0
    requires rule == Defend ==> estimate < TruncDiv(7 * present, 10)
    requires rule == Expand ==> present > 2
    ensures 0 <= Committed(rule, present, estimate) <= present
    ensures rule == Expand ==> (Committed(rule, present, estimate) > 0 &&
      present - Committed(rule, present, estimate) >= 1)
  {
    TruncScaleBound(present, 4, 5);
    TruncScaleBound(present, 7, 10);
    TruncDivIsFloor(4 * present, 5);
  }

  /** The running state of the neighbour loop: orders so far and `presentTroops`. */
  datatype Scan = Scan(orders: seq<Order>, present: int)

  /** Every order is the player's, leaves `origin` and goes to one of `targets`. */
  predicate Emitted(orders: seq<Order>, me: string, origin: RegionId, targets: seq<RegionId>)
  {
    forall k :: 0 <= k < |orders| ==>
      orders[k].player == me && orders[k].source == origin && orders[k].target in targets
  }

  /** One pass of the neighbour loop: decide for `target` and, unless no rule
      fires, emit the order and take its troops off `presentTroops`. */
  function Advance(board: Board, me: string, opponentName: string, origin: RegionId, target: RegionId, s: Scan): (r: Scan)
    requires Closed(board) && origin in board && target in board
    ensures SentTotal(r.orders) + r.present == SentTotal(s.orders) + s.present
    ensures r == s || r.orders == s.orders + [Order(me, origin, target, s.present - r.present)]
    ensures var rule := ChooseRule(board, me, opponentName, origin, target, s.present);
      && (r == s <==> rule == Hold)
      && (rule != Hold ==>
            r.present == s.present - Committed(rule, s.present, EstimateAttackingTroops(board[target].armies)))
  {
    var rule := ChooseRule(board, me, opponentName, origin, target, s.present);
    if rule == Hold then s
    else
      var c := Committed(rule, s.present, EstimateAttackingTroops(board[target].armies));
      var orders := s.orders + [Order(me, origin, target, c)];
      assert orders[..|orders| - 1] == s.orders;
      Scan(orders, s.present - c)
  }

  /** The neighbour loop for `origin` over `targets`, starting from the
      origin's armies on the board. */
  function AttackScan(board: Board, me: string, opponentName: string, origin: RegionId, targets: seq<RegionId>): (s: Scan)
    requires Closed(board) && origin in board && InBoard(board, targets)
    ensures SentTotal(s.orders) + s.present == board[origin].armies
    ensures Emitted(s.orders, me, origin, targets)
  {
    if targets == [] then Scan([], board[origin].armies)
    else
      var init := targets[..|targets| - 1];
      var s := AttackScan(board, me, opponentName, origin, init);
      var r := Advance(board, me, opponentName, origin, targets[|targets| - 1], s);
      EmittedStep(s.orders, r.orders, me, origin, targets, s.present - r.present);
      r
  }

  /** Some order of `orders` is sent into `t`. */
  predicate Attacked(orders: seq<Order>, t: RegionId)
  {
    exists j :: 0 <= j < |orders| && orders[j].target == t
  }

  lemma AdvanceKeepsAttacked(board: Board, me: string, opponentName: string, origin: RegionId, target: RegionId, s: Scan, t: RegionId)
    requires Closed(board) && origin in board && target in board
    requires Attacked(s.orders, t)
    ensures Attacked(Advance(board, me, opponentName, origin, target, s).orders, t)
  {
    var r := Advance(board, me, opponentName, origin, target, s);
    var j :| 0 <= j < |s.orders| && s.orders[j].target == t;
    if r != s {
      assert r.orders[j] == s.orders[j];
    }
  }

  lemma ComboAdvanceAttacks(board: Board, me: string, opponentName: string, origin: RegionId, target: RegionId, s: Scan)
    requires Closed(board) && origin in board && target in board
    requires board[target].owner == opponentName && ComboChance(board, me, origin, target)
    ensures Attacked(Advance(board, me, opponentName, origin, target, s).orders, target)
  {
    var r := Advance(board, me, opponentName, origin, target, s);
    assert r.orders[|s.orders|].target == target;
  }

  /** Every opponent neighbour the combo rule fires for receives an order,
      whatever troops are left when the loop reaches it. */
  lemma {:induction false} ComboTargetsAttacked(board: Board, me: string, opponentName: string, origin: RegionId, targets: seq<RegionId>)
    requires Closed(board) && origin in board && InBoard(board, targets)
    ensures var orders := AttackScan(board, me, opponentName, origin, targets).orders;
      forall k :: 0 <= k < |targets| && board[targets[k]].owner == opponentName
                  && ComboChance(board, me, origin, targets[k])
        ==> Attacked(orders, targets[k])
  {
    if targets != [] {
      var init := targets[..|targets| - 1];
      var t := targets[|targets| - 1];
      assert forall k :: 0 <= k < |init| ==> init[k] == targets[k];
      ComboTargetsAttacked(board, me, opponentName, origin, init);
      var s := AttackScan(board, me, opponentName, origin, init);
      forall k | 0 <= k < |targets| && board[targets[k]].owner == opponentName
                 && ComboChance(board, me, origin, targets[k])
        ensures Attacked(Advance(board, me, opponentName, origin, t, s).orders, targets[k])
      {
        if k < |init| {
          AdvanceKeepsAttacked(board, me, opponentName, origin, t, s, targets[k]);
        } else {
          ComboAdvanceAttacks(board, me, opponentName, origin, t, s);
        }
      }
    }
  }

  lemma EmittedStep(before: seq<Order>, after: seq<Order>, me: string, origin: RegionId, targets: seq<RegionId>, n: int)
    requires targets != [] && Emitted(before, me, origin, targets[..|targets| - 1])
    requires after == before || after == before + [Order(me, origin, targets[|targets| - 1], n)]
    ensures Emitted(after, me, origin, targets)
  {
    forall k | 0 <= k < |after|
      ensures after[k].player == me && after[k].source == origin && after[k].target in targets
    {
      if k < |before| {
        assert after[k] == before[k];
        var init := targets[..|targets| - 1];
        var j :| 0 <= j < |init| && init[j] == before[k].target;
        assert targets[j] == init[j];
      }
    }
  }

  /** No order moves a negative number of troops. */
  predicate NonNegativeOrders(orders: seq<Order>)
  {
    forall k :: 0 <= k < |orders| ==> orders[k].armies >= 0
  }

  /** One pass of the neighbour loop keeps `presentTroops` non-negative and
      emits no negative order. */
  lemma AdvanceBudget(board: Board, me: string, opponentName: string, origin: RegionId, target: RegionId, s: Scan)
    requires Closed(board) && origin in board && target in board && NonNegativeArmies(board)
    requires s.present >= 0 && NonNegativeOrders(s.orders)
    ensures var r := Advance(board, me, opponentName, origin, target, s);
      r.present >= 0 && NonNegativeOrders(r.orders)
  {
    var rule := ChooseRule(board, me, opponentName, origin, target, s.present);
    var estimate := EstimateAttackingTroops(board[target].armies);
    StepBounds(rule, s.present, estimate);
    if rule != Hold {
      var order := Order(me, origin, target, Committed(rule, s.present, estimate));
      assert Advance(board, me, opponentName, origin, target, s).orders == s.orders + [order];
    }
  }

  /** `presentTroops` never goes negative, no attack order is negative, and the
      origin's attack orders sum to at most its armies. */
  lemma {:induction false} AttackScanBudget(board: Board, me: string, opponentName: string, origin: RegionId, targets: seq<RegionId>)
    requires Closed(board) && origin in board && InBoard(board, targets) && NonNegativeArmies(board)
    ensures var s := AttackScan(board, me, opponentName, origin, targets);
      s.present >= 0 && SentTotal(s.orders) <= board[origin].armies && NonNegativeOrders(s.orders)
  {
    if targets != [] {
      var init := targets[..|targets| - 1];
      AttackScanBudget(board, me, opponentName, origin, init);
      var s := AttackScan(board, me, opponentName, origin, init);
      AdvanceBudget(board, me, opponentName, origin, targets[|targets| - 1], s);
    }
  }

  /** Between two distinct players an origin all of whose scanned neighbours
      are the player's own issues no attack. */
  lemma {:induction false} OwnNeighboursDrawNoAttack(board: Board, me: string, opponentName: string, origin: RegionId, targets: seq<RegionId>)
    requires Closed(board) && origin in board && InBoard(board, targets) && me != opponentName
    requires AllOwnedBy(board, targets, me)
    ensures AttackScan(board, me, opponentName, origin, targets).orders == []
  {
    if targets != [] {
      var init := targets[..|targets| - 1];
      assert AllOwnedBy(board, init, me) by {
        forall k | 0 <= k < |init| ensures init[k] in board && board[init[k]].owner == me {
          assert init[k] == targets[k];
        }
      }
      OwnNeighboursDrawNoAttack(board, me, opponentName, origin, init);
    }
  }

  /** One order of `chunk` troops from `origin` to each destination, in order. */
  function SendAll(me: string, origin: RegionId, dests: seq<RegionId>, chunk: int): (orders: seq<Order>)
    ensures |orders| == |dests|
    ensures forall k :: 0 <= k < |dests| ==> orders[k] == Order(me, origin, dests[k], chunk)
  {
    if dests == [] then [] else SendAll(me, origin, dests[..|dests| - 1], chunk) + [Order(me, origin, dests[|dests| - 1], chunk)]
  }

  lemma {:induction false} SendAllTotal(me: string, origin: RegionId, dests: seq<RegionId>, chunk: int)
    ensures SentTotal(SendAll(me, origin, dests, chunk)) == chunk * |dests|
  {
    if dests != [] {
      var init := dests[..|dests| - 1];
      var orders := SendAll(me, origin, dests, chunk);
      SendAllTotal(me, origin, init, chunk);
      assert orders == SendAll(me, origin, init, chunk) + [Order(me, origin, dests[|dests| - 1], chunk)];
      assert orders[..|orders| - 1] == SendAll(me, origin, init, chunk);
      assert SentTotal(orders) == chunk * |init| + chunk;
      MulSucc(chunk, |init|);
    }
  }

  /** `troopChunk = transferrableTroops / |dests|` to each destination, or
      nothing when the chunk is 0. */
  function Split(me: string, origin: RegionId, dests: seq<RegionId>, transferrableTroops: int): (orders: seq<Order>)
    requires transferrableTroops > 0 && |dests| > 0
    ensures SentTotal(orders) <= transferrableTroops
    ensures forall k :: 0 <= k < |orders| ==>
      orders[k].armies > 0 && orders[k].player == me && orders[k].source == origin && orders[k].target in dests
    ensures var chunk := transferrableTroops / |dests|;
      if chunk > 0 then |orders| == |dests| && forall k :: 0 <= k < |dests| ==> orders[k] == Order(me, origin, dests[k], chunk)
      else orders == []
  {
    var troopChunk := transferrableTroops / |dests|;
    if troopChunk > 0 then
      ChunkedTotal(me, origin, dests, transferrableTroops);
      SendAll(me, origin, dests, troopChunk)
    else []
  }

  /** The transfer block for one visible region (whoever owns it): when fewer
      than WORLD_DOMINANCE_LIMIT regions are the player's and every neighbour
      is, `armies - 1` is split evenly among the owned neighbours that are not
      safe, or among all neighbours when there are none; an empty neighbour
      list divides by zero. */
  function Transfers(board: Board, me: string, origin: RegionId, ownedRegions: int): (r: Result<seq<Order>>)
    requires Closed(board) && origin in board
    ensures r.Err? ==> r == Err(DivisionByZero) && board[origin].neighbors == []
  {
    var neighbors := board[origin].neighbors;
    var transferrableTroops := board[origin].armies - 1;
    if ownedRegions < WorldDominanceLimit && AllOwnedBy(board, neighbors, me) && transferrableTroops > 0 then
      var unsafeNeighbors := Endangered(board, neighbors, me);
      if |unsafeNeighbors| > 0 then Ok(Split(me, origin, unsafeNeighbors, transferrableTroops))
      else if |neighbors| == 0 then Err(DivisionByZero)
      else Ok(Split(me, origin, neighbors, transferrableTroops))
    else Ok([])
  }

  /** Splitting `t` troops evenly among `dests` sends at most `t`. */
  lemma ChunkedTotal(me: string, origin: RegionId, dests: seq<RegionId>, t: int)
    requires t > 0 && |dests| > 0
    ensures SentTotal(SendAll(me, origin, dests, t / |dests|)) <= t
  {
    SendAllTotal(me, origin, dests, t / |dests|);
    FloorBounds(t, |dests|);
  }

  /** Transfers happen only below the dominance limit from a region whose
      neighbours are all the player's; every transfer is positive and goes to
      a neighbour, to the unsafe owned ones whenever there are any; together
      they move at most `armies - 1`. */
  lemma TransferBudget(board: Board, me: string, origin: RegionId, ownedRegions: int)
    requires Closed(board) && origin in board
    requires Transfers(board, me, origin, ownedRegions).Ok?
    ensures var orders := Transfers(board, me, origin, ownedRegions).value;
      var neighbors := board[origin].neighbors;
      && (orders != [] ==> ownedRegions < WorldDominanceLimit && AllOwnedBy(board, neighbors, me))
      && (orders != [] ==> SentTotal(orders) <= board[origin].armies - 1)
      && (forall k :: 0 <= k < |orders| ==>
            orders[k].armies > 0 && orders[k].player == me && orders[k].source == origin
            && orders[k].target in neighbors)
      && (Endangered(board, neighbors, me) != [] ==> forall k :: 0 <= k < |orders| ==>
            !AllOwnedBy(board, board[orders[k].target].neighbors, me))
  {
  }

  /** The even split: below the dominance limit, from a region whose
      neighbours are all the player's and that has troops to spare, each
      unsafe owned neighbour (or, when there is none, each neighbour) gets
      exactly one order of `(armies - 1) / destinations` troops, in order,
      and no order is issued when that chunk is 0. */
  lemma TransferEvenSplit(board: Board, me: string, origin: RegionId, ownedRegions: int)
    requires Closed(board) && origin in board
    requires Transfers(board, me, origin, ownedRegions).Ok?
    requires ownedRegions < WorldDominanceLimit && AllOwnedBy(board, board[origin].neighbors, me)
    requires board[origin].armies > 1
    ensures var orders := Transfers(board, me, origin, ownedRegions).value;
      var neighbors := board[origin].neighbors;
      var dests := if Endangered(board, neighbors, me) != [] then Endangered(board, neighbors, me) else neighbors;
      var chunk := (board[origin].armies - 1) / |dests|;
      |dests| > 0 &&
      if chunk > 0 then
        |orders| == |dests| && forall k :: 0 <= k < |dests| ==> orders[k] == Order(me, origin, dests[k], chunk)
      else orders == []
  {
  }

  /** A region that would make the transfer block divide by zero: no
      neighbours and troops to spare. */
  predicate Isolated(board: Board, id: RegionId)
    requires id in board
  {
    board[id].neighbors == [] && board[id].armies > 1
  }

  /** The transfer block divides by zero exactly for an isolated region with
      troops to spare while the player is below the dominance limit. */
  lemma TransferFailure(board: Board, me: string, origin: RegionId, ownedRegions: int)
    requires Closed(board) && origin in board
    ensures Transfers(board, me, origin, ownedRegions).Err? <==>
      ownedRegions < WorldDominanceLimit && Isolated(board, origin)
  {
  }

  /** All the orders issued for one visible region: its attacks when it is the
      player's, then its transfers. */
  function OrdersFrom(board: Board, me: string, opponentName: string, origin: RegionId, ownedRegions: int): (r: Result<seq<Order>>)
    requires Closed(board) && origin in board
    ensures r.Err? <==> Transfers(board, me, origin, ownedRegions).Err?
    ensures board[origin].owner != me ==> r == Transfers(board, me, origin, ownedRegions)
  {
    var attacks := if board[origin].owner == me
      then AttackScan(board, me, opponentName, origin, board[origin].neighbors).orders else [];
    match Transfers(board, me, origin, ownedRegions)
    case Err(f) => Err(f)
    case Ok(transfers) =>
      assert board[origin].owner != me ==> attacks + transfers == transfers;
      Ok(attacks + transfers)
  }

  /** Per origin the orders never move a negative number of troops and
      together never move more than the origin holds: a safe region only
      transfers and an unsafe one only attacks. */
  lemma OriginBudget(board: Board, me: string, opponentName: string, origin: RegionId, ownedRegions: int)
    requires Closed(board) && origin in board && NonNegativeArmies(board) && me != opponentName
    requires OrdersFrom(board, me, opponentName, origin, ownedRegions).Ok?
    ensures var orders := OrdersFrom(board, me, opponentName, origin, ownedRegions).value;
      && SentTotal(orders) <= board[origin].armies
      && forall k :: 0 <= k < |orders| ==> orders[k].armies >= 0 && orders[k].source == origin && orders[k].player == me
  {
    var neighbors := board[origin].neighbors;
    var attacks := if board[origin].owner == me
      then AttackScan(board, me, opponentName, origin, neighbors).orders else [];
    var transfers := Transfers(board, me, origin, ownedRegions).value;
    TransferBudget(board, me, origin, ownedRegions);
    AttackScanBudget(board, me, opponentName, origin, neighbors);
    SentTotalAppend(attacks, transfers);
    if AllOwnedBy(board, neighbors, me) {
      OwnNeighboursDrawNoAttack(board, me, opponentName, origin, neighbors);
      assert attacks + transfers == transfers;
    } else {
      assert transfers == [];
      assert attacks + transfers == attacks;
    }
  }

  /** The orders of the whole loop over `visible`, or the exception that ends it. */
  function Plan(board: Board, me: string, opponentName: string, visible: seq<RegionId>, ownedRegions: int): (r: Result<seq<Order>>)
    requires Closed(board) && InBoard(board, visible)
    ensures r.Err? ==> r == Err(DivisionByZero)
  {
    if visible == [] then Ok([])
    else
      match Plan(board, me, opponentName, visible[..|visible| - 1], ownedRegions)
      case Err(f) => Err(f)
      case Ok(before) =>
        match OrdersFrom(board, me, opponentName, visible[|visible| - 1], ownedRegions)
        case Err(f) => Err(f)
        case Ok(more) => Ok(before + more)
  }

  /** What getAttackTransferMoves returns: the loop with the owned-region count
      computed first. */
  function AttackTransferPlan(board: Board, me: string, opponentName: string, visible: seq<RegionId>): (r: Result<seq<Order>>)
    requires Closed(board) && InBoard(board, visible)
    ensures r.Err? ==> r == Err(DivisionByZero)
  {
    Plan(board, me, opponentName, visible, OwnedCount(board, visible, me))
  }

  /** Some region of `ids` is isolated. */
  predicate SomeIsolated(board: Board, ids: seq<RegionId>)
    requires InBoard(board, ids)
  {
    exists k :: 0 <= k < |ids| && Isolated(board, ids[k])
  }

  lemma SomeIsolatedSplit(board: Board, visible: seq<RegionId>)
    requires InBoard(board, visible) && visible != []
    ensures SomeIsolated(board, visible) <==>
      SomeIsolated(board, visible[..|visible| - 1]) || Isolated(board, visible[|visible| - 1])
  {
    var init := visible[..|visible| - 1];
    if SomeIsolated(board, visible) {
      var k :| 0 <= k < |visible| && Isolated(board, visible[k]);
      if k < |init| {
        assert init[k] == visible[k];
      }
    }
    if SomeIsolated(board, init) {
      var k :| 0 <= k < |init| && Isolated(board, init[k]);
      assert init[k] == visible[k];
    }
  }

  /** The plan fails exactly when some visible region is isolated and has
      troops to spare while the player is below the dominance limit. */
  lemma {:induction false} PlanFailure(board: Board, me: string, opponentName: string, visible: seq<RegionId>, ownedRegions: int)
    requires Closed(board) && InBoard(board, visible)
    ensures Plan(board, me, opponentName, visible, ownedRegions).Err? <==>
      ownedRegions < WorldDominanceLimit && SomeIsolated(board, visible)
  {
    if visible != [] {
      var init := visible[..|visible| - 1];
      var last := visible[|visible| - 1];
      PlanFailure(board, me, opponentName, init, ownedRegions);
      TransferFailure(board, me, last, ownedRegions);
      SomeIsolatedSplit(board, visible);
    }
  }

  /** One more visible region: its orders are appended, or its exception ends the loop. */
  lemma PlanStep(board: Board, me: string, opponentName: string, visible: seq<RegionId>, j: nat, ownedRegions: int,
                 before: seq<Order>)
    requires Closed(board) && InBoard(board, visible) && j < |visible|
    requires Plan(board, me, opponentName, visible[..j], ownedRegions) == Ok(before)
    ensures Plan(board, me, opponentName, visible[..j + 1], ownedRegions) ==
      match OrdersFrom(board, me, opponentName, visible[j], ownedRegions)
      case Err(f) => Err(f)
      case Ok(more) => Ok(before + more)
  {
    assert visible[..j + 1][..j] == visible[..j];
  }

  /** Once a prefix of the loop has thrown, the whole loop ends with that exception. */
  lemma {:induction false} PlanFailureSticks(board: Board, me: string, opponentName: string, visible: seq<RegionId>, n: nat, ownedRegions: int)
    requires Closed(board) && InBoard(board, visible) && n <= |visible|
    requires Plan(board, me, opponentName, visible[..n], ownedRegions).Err?
    ensures Plan(board, me, opponentName, visible, ownedRegions) == Plan(board, me, opponentName, visible[..n], ownedRegions)
    decreases |visible| - n
  {
    if n < |visible| {
      assert visible[..n + 1][..n] == visible[..n];
      PlanFailureSticks(board, me, opponentName, visible, n + 1, ownedRegions);
    } else {
      assert visible[..n] == visible;
    }
  }

  /** Orders that are the player's, leave one of `origins` and move a
      non-negative number of troops. */
  predicate SoundOrders(orders: seq<Order>, me: string, origins: seq<RegionId>)
  {
    forall k :: 0 <= k < |orders| ==>
      orders[k].player == me && orders[k].source in origins && orders[k].armies >= 0
  }

  lemma SoundOrdersAppend(before: seq<Order>, more: seq<Order>, me: string, visible: seq<RegionId>)
    requires visible != []
    requires SoundOrders(before, me, visible[..|visible| - 1])
    requires forall k :: 0 <= k < |more| ==>
      more[k].player == me && more[k].source == visible[|visible| - 1] && more[k].armies >= 0
    ensures SoundOrders(before + more, me, visible)
  {
    var orders := before + more;
    forall k | 0 <= k < |orders|
      ensures orders[k].player == me && orders[k].source in visible && orders[k].armies >= 0
    {
      if k < |before| {
        assert orders[k] == before[k];
        var init := visible[..|visible| - 1];
        assert before[k].source in init;
        var j :| 0 <= j < |init| && init[j] == before[k].source;
        assert visible[j] == init[j];
      } else {
        assert orders[k] == more[k - |before|];
      }
    }
  }

  /** Every order of a successful plan is the player's, leaves a visible
      region, and, with non-negative armies and two distinct players, moves a
      non-negative number of troops. */
  lemma {:induction false} PlanOrders(board: Board, me: string, opponentName: string, visible: seq<RegionId>, ownedRegions: int)
    requires Closed(board) && InBoard(board, visible) && NonNegativeArmies(board) && me != opponentName
    requires Plan(board, me, opponentName, visible, ownedRegions).Ok?
    ensures SoundOrders(Plan(board, me, opponentName, visible, ownedRegions).value, me, visible)
  {
    if visible != [] {
      var init := visible[..|visible| - 1];
      var last := visible[|visible| - 1];
      var prefix := Plan(board, me, opponentName, init, ownedRegions);
      var step := OrdersFrom(board, me, opponentName, last, ownedRegions);
      assert prefix.Ok? && step.Ok?;
      PlanOrders(board, me, opponentName, init, ownedRegions);
      OriginBudget(board, me, opponentName, last, ownedRegions);
      assert Plan(board, me, opponentName, visible, ownedRegions).value == prefix.value + step.value;
      SoundOrdersAppend(prefix.value, step.value, me, visible);
    }
  }

  /** Rule (c): an unthreatened region with 10 armies next to a neutral region
      with 4 sends `(int) (10 * 0.8)` = 8 into it. */
  lemma ExpansionScenario()
    ensures var board := map[1 := Region(1, 0, "me", 10, [2]), 2 := Region(2, 0, Unknown, 4, [1])];
      Closed(board) && AttackScan(board, "me", "opp", 1, [2]).orders == [Order("me", 1, 2, 8)]
  {
    var board := map[1 := Region(1, 0, "me", 10, [2]), 2 := Region(2, 0, Unknown, 4, [1])];
    assert !SomeOwnedBy(board, board[1].neighbors, "opp") by {
      assert board[1].neighbors == [2];
    }
    assert [2][..0] == [];
    var s0 := AttackScan(board, "me", "opp", 1, []);
    assert s0 == Scan([], 10);
    assert ChooseRule(board, "me", "opp", 1, 2, 10) == Expand;
    assert TruncDiv(4 * 10, 5) == 8;
    assert Advance(board, "me", "opp", 1, 2, s0) == Scan([Order("me", 1, 2, 8)], 2);
    assert AttackScan(board, "me", "opp", 1, [2]) == Advance(board, "me", "opp", 1, 2, s0);
  }

  /** The same region facing an opponent's region instead is threatened, too
      weak for a combo and short of the estimate (14 needed, 7 available):
      no order. */
  lemma ThreatenedHoldScenario()
    ensures var board := map[1 := Region(1, 0, "me", 10, [2]), 2 := Region(2, 0, "opp", 4, [1])];
      Closed(board) && AttackScan(board, "me", "opp", 1, [2]).orders == []
  {
    var board := map[1 := Region(1, 0, "me", 10, [2]), 2 := Region(2, 0, "opp", 4, [1])];
    assert SomeOwnedBy(board, board[1].neighbors, "opp") by {
      assert board[1].neighbors[0] == 2;
    }
    assert [2][..0] == [];
    var s0 := AttackScan(board, "me", "opp", 1, []);
    assert s0 == Scan([], 10);
    assert EstimateAttackingTroops(4) == 14;
    assert TruncDiv(7 * 10, 10) == 7;
    assert ChooseRule(board, "me", "opp", 1, 2, 10) == Hold;
    assert AttackScan(board, "me", "opp", 1, [2]) == Advance(board, "me", "opp", 1, 2, s0) == s0;
  }

  /** Rule (b): a threatened region with 20 armies attacks an opponent's
      region with 3 using the estimate, 10 troops. */
  lemma DefenceScenario()
    ensures var board := map[1 := Region(1, 0, "me", 20, [2]), 2 := Region(2, 0, "opp", 3, [1])];
      Closed(board) && AttackScan(board, "me", "opp", 1, [2]).orders == [Order("me", 1, 2, 10)]
  {
    var board := map[1 := Region(1, 0, "me", 20, [2]), 2 := Region(2, 0, "opp", 3, [1])];
    assert SomeOwnedBy(board, board[1].neighbors, "opp") by {
      assert board[1].neighbors[0] == 2;
    }
    assert !ComboChance(board, "me", 1, 2) by {
      assert board[2].neighbors == [1];
    }
    assert [2][..0] == [];
    var s0 := AttackScan(board, "me", "opp", 1, []);
    assert s0 == Scan([], 20);
    assert EstimateAttackingTroops(3) == 10;
    assert TruncDiv(7 * 20, 10) == 14;
    assert ChooseRule(board, "me", "opp", 1, 2, 20) == Defend;
    assert Advance(board, "me", "opp", 1, 2, s0) == Scan([Order("me", 1, 2, 10)], 10);
    assert AttackScan(board, "me", "opp", 1, [2]) == Advance(board, "me", "opp", 1, 2, s0);
  }

  /** Rule (a): two regions of 15 and 13 armies flank an opponent's region of
      10; the first commits `(int) (15 * 0.8)` = 12. */
  lemma ComboScenario()
    ensures var board := map[1 := Region(1, 0, "me", 15, [2]), 2 := Region(2, 0, "opp", 10, [1, 3]),
                             3 := Region(3, 0, "me", 13, [2])];
      Closed(board) && AttackScan(board, "me", "opp", 1, [2]).orders == [Order("me", 1, 2, 12)]
  {
    var board := map[1 := Region(1, 0, "me", 15, [2]), 2 := Region(2, 0, "opp", 10, [1, 3]),
                     3 := Region(3, 0, "me", 13, [2])];
    assert ComboChance(board, "me", 1, 2) by {
      assert board[2].neighbors[1] == 3;
      assert ComboPartner(board, "me", 1, 2, 3);
    }
    assert Closed(board) by {
      assert board[2].neighbors == [1, 3];
    }
    assert [2][..0] == [];
    var s0 := AttackScan(board, "me", "opp", 1, []);
    assert s0 == Scan([], 15);
    assert ChooseRule(board, "me", "opp", 1, 2, 15) == Combo;
    assert TruncDiv(4 * 15, 5) == 12;
    assert Advance(board, "me", "opp", 1, 2, s0) == Scan([Order("me", 1, 2, 12)], 3);
    assert AttackScan(board, "me", "opp", 1, [2]) == Advance(board, "me", "opp", 1, 2, s0);
  }

  /** A region of 15 facing three opponent regions of 10, each backed by a
      region of 13. */
  function DrainBoard(): (board: Board)
    ensures Closed(board) && 1 in board && board[1].neighbors == [2, 3, 4]
  {
    var board := map[1 := Region(1, 0, "me", 15, [2, 3, 4]),
                     2 := Region(2, 0, "opp", 10, [1, 5]), 3 := Region(3, 0, "opp", 10, [1, 5]),
                     4 := Region(4, 0, "opp", 10, [1, 5]), 5 := Region(5, 0, "me", 13, [2, 3, 4])];
    assert board[1].neighbors == [2, 3, 4] && board[5].neighbors == [2, 3, 4];
    assert board[2].neighbors == [1, 5] && board[3].neighbors == [1, 5] && board[4].neighbors == [1, 5];
    board
  }

  /** Whatever is still present, rule (a) fires against each opponent region
      of the drain board. */
  lemma DrainCombo(t: RegionId, present: int)
    requires t == 2 || t == 3 || t == 4
    ensures ChooseRule(DrainBoard(), "me", "opp", 1, t, present) == Combo
  {
    var board := DrainBoard();
    assert board[t].neighbors[1] == 5;
    assert ComboPartner(board, "me", 1, t, 5);
  }

  /** One combo pass of the neighbour loop on the drain board. */
  lemma DrainStep(t: RegionId, s: Scan)
    requires t == 2 || t == 3 || t == 4
    ensures Advance(DrainBoard(), "me", "opp", 1, t, s)
         == Scan(s.orders + [Order("me", 1, t, TruncDiv(4 * s.present, 5))], s.present - TruncDiv(4 * s.present, 5))
  {
    DrainCombo(t, s.present);
  }

  /** Rule (a) commits from the running `presentTroops` while its
      eligibility reads the origin's armies on the map: the 15 of the drain
      board sends 12, then 2, then an order of 0 troops. */
  lemma ComboDrainScenario()
    ensures AttackScan(DrainBoard(), "me", "opp", 1, [2, 3, 4]).orders
         == [Order("me", 1, 2, 12), Order("me", 1, 3, 2), Order("me", 1, 4, 0)]
  {
    var board := DrainBoard();
    assert [2, 3, 4][..2] == [2, 3] && [2, 3][..1] == [2] && [2][..0] == [];
    assert TruncDiv(4 * 15, 5) == 12 && TruncDiv(4 * 3, 5) == 2 && TruncDiv(4 * 1, 5) == 0;
    var s0 := AttackScan(board, "me", "opp", 1, []);
    assert s0 == Scan([], 15);
    DrainStep(2, s0);
    var s1 := AttackScan(board, "me", "opp", 1, [2]);
    assert s1 == Scan([Order("me", 1, 2, 12)], 3);
    DrainStep(3, s1);
    var s2 := AttackScan(board, "me", "opp", 1, [2, 3]);
    assert s2 == Scan([Order("me", 1, 2, 12), Order("me", 1, 3, 2)], 1);
    DrainStep(4, s2);
  }

  /** The transfer block is not guarded by ownership: a neutral region all of
      whose neighbours are the player's splits its spare armies among them. */
  lemma NeutralRegionTransfers()
    ensures var board := map[1 := Region(1, 0, "me", 10, [2]), 2 := Region(2, 0, Unknown, 4, [1])];
      Closed(board) && Transfers(board, "me", 2, 1) == Ok([Order("me", 2, 1, 3)])
  {
    var board := map[1 := Region(1, 0, "me", 10, [2]), 2 := Region(2, 0, Unknown, 4, [1])];
    assert AllOwnedBy(board, board[2].neighbors, "me");
    assert !AllOwnedBy(board, board[1].neighbors, "me") by {
      assert board[1].neighbors[0] == 2;
    }
    assert Closed(board) by {
      assert board[1].neighbors == [2] && board[2].neighbors == [1];
    }
    assert [1][..0] == [];
    assert Endangered(board, [1], "me") == [1];
    assert SendAll("me", 2, [1], 3) == [Order("me", 2, 1, 3)];
    assert Split("me", 2, [1], 3) == [Order("me", 2, 1, 3)];
  }

  /** `getAttackTransferMoves`: count the owned regions, then for every
      visible region run the neighbour loop when it is the player's and the
      transfer block in any case; a division by zero ends the whole call. */
  method GetAttackTransferMoves(board: Board, visible: seq<RegionId>, me: string, opponentName: string)
    returns (result: Result<seq<Order>>)
    requires Closed(board) && InBoard(board, visible)
    ensures result == AttackTransferPlan(board, me, opponentName, visible)
  {
    var attackTransferMoves: seq<Order> := [];
    var ownedRegions := CountOwnedRegions(board, visible, me);
    for j := 0 to |visible|
      invariant Plan(board, me, opponentName, visible[..j], ownedRegions) == Ok(attackTransferMoves)
    {
      var fromRegion := visible[j];
      var step := PlanRegion(board, me, opponentName, fromRegion, ownedRegions);
      PlanStep(board, me, opponentName, visible, j, ownedRegions, attackTransferMoves);
      if step.Err? {
        PlanFailureSticks(board, me, opponentName, visible, j + 1, ownedRegions);
        return step;
      }
      attackTransferMoves := attackTransferMoves + step.value;
    }
    assert visible[..|visible|] == visible;
    result := Ok(attackTransferMoves);
  }

  /** The body of getAttackTransferMoves' loop for one visible region. */
  method PlanRegion(board: Board, me: string, opponentName: string, fromRegion: RegionId, ownedRegions: int)
    returns (result: Result<seq<Order>>)
    requires Closed(board) && fromRegion in board
    ensures result == OrdersFrom(board, me, opponentName, fromRegion, ownedRegions)
  {
    var attacks: seq<Order> := [];
    if board[fromRegion].OwnedByPlayer(me) {
      attacks := AttackFrom(board, me, opponentName, fromRegion);
    }
    var transfers := TransferFrom(board, me, fromRegion, ownedRegions);
    if transfers.Err? {
      return Err(transfers.failure);
    }
    result := Ok(attacks + transfers.value);
  }

  /** The neighbour loop of getAttackTransferMoves for one owned region. */
  method AttackFrom(board: Board, me: string, opponentName: string, fromRegion: RegionId)
    returns (attacks: seq<Order>)
    requires Closed(board) && fromRegion in board
    ensures attacks == AttackScan(board, me, opponentName, fromRegion, board[fromRegion].neighbors).orders
  {
    var neighbors := board[fromRegion].neighbors;
    var presentTroops := board[fromRegion].armies;
    attacks := [];
    for i := 0 to |neighbors|
      invariant AttackScan(board, me, opponentName, fromRegion, neighbors[..i]) == Scan(attacks, presentTroops)
    {
      assert neighbors[..i + 1][..i] == neighbors[..i];
      attacks, presentTroops := AttackStep(board, me, opponentName, fromRegion, neighbors[i], attacks, presentTroops);
    }
    assert neighbors[..|neighbors|] == neighbors;
  }

  /** One pass of the neighbour loop: the three rules in order. */
  method AttackStep(board: Board, me: string, opponentName: string, fromRegion: RegionId, toRegion: RegionId,
                    attacks: seq<Order>, presentTroops: int)
    returns (attacks': seq<Order>, presentTroops': int)
    requires Closed(board) && fromRegion in board && toRegion in board
    ensures Scan(attacks', presentTroops') == Advance(board, me, opponentName, fromRegion, toRegion, Scan(attacks, presentTroops))
  {
    attacks', presentTroops' := attacks, presentTroops;
    var neighborTroops := board[toRegion].armies;
    var attackEstimation := EstimateAttackingTroops(neighborTroops);
    var opponents := board[toRegion].OwnedByPlayer(opponentName);
    var combo := false;
    if opponents {
      combo := ComboAttackChance(board, me, fromRegion, toRegion);
    }
    var threatened := IsThreatened(board, fromRegion, opponentName);
    if opponents && combo {
      attacks' := attacks + [Order(me, fromRegion, toRegion, TruncDiv(4 * presentTroops, 5))];
      presentTroops' := presentTroops - TruncDiv(4 * presentTroops, 5);
    } else if opponents && threatened && TruncDiv(7 * presentTroops, 10) > attackEstimation {
      attacks' := attacks + [Order(me, fromRegion, toRegion, attackEstimation)];
      presentTroops' := presentTroops - attackEstimation;
    } else if !board[toRegion].OwnedByPlayer(me) && !threatened && presentTroops > 2
      && 5 * neighborTroops < 3 * presentTroops {
      attacks' := attacks + [Order(me, fromRegion, toRegion, TruncDiv(4 * presentTroops, 5))];
      presentTroops' := presentTroops - TruncDiv(4 * presentTroops, 5);
    }
  }

  /** The transfer block of getAttackTransferMoves for one visible region. */
  method TransferFrom(board: Board, me: string, fromRegion: RegionId, ownedRegions: int)
    returns (result: Result<seq<Order>>)
    requires Closed(board) && fromRegion in board
    ensures result == Transfers(board, me, fromRegion, ownedRegions)
  {
    var neighbors := board[fromRegion].neighbors;
    result := Ok([]);
    if ownedRegions < WorldDominanceLimit {
      var safe := IsSafe(board, fromRegion, me);
      if safe {
        var transferrableTroops := board[fromRegion].armies - 1;
        if transferrableTroops > 0 {
          var unsafeNeighbors := UnsafeNeighbors(board, me, neighbors);
          var dests := neighbors;
          if |unsafeNeighbors| > 0 {
            dests := unsafeNeighbors;
          } else if |neighbors| == 0 {
            return Err(DivisionByZero);
          }
          var troopChunk := transferrableTroops / |dests|;
          var orders: seq<Order> := [];
          if troopChunk > 0 {
            orders := SendChunks(me, fromRegion, dests, troopChunk);
          }
          assert orders == Split(me, fromRegion, dests, transferrableTroops);
          result := Ok(orders);
        }
      }
    }
  }

  /** The owned neighbours that are not safe, collected in order. */
  method UnsafeNeighbors(board: Board, me: string, neighbors: seq<RegionId>) returns (unsafeNeighbors: seq<RegionId>)
    requires Closed(board) && InBoard(board, neighbors)
    ensures unsafeNeighbors == Endangered(board, neighbors, me)
  {
    unsafeNeighbors := [];
    for i := 0 to |neighbors|
      invariant unsafeNeighbors == Endangered(board, neighbors[..i], me)
    {
      assert neighbors[..i + 1][..i] == neighbors[..i];
      var potentialDestination := neighbors[i];
      if board[potentialDestination].OwnedByPlayer(me) {
        var destinationSafe := IsSafe(board, potentialDestination, me);
        if !destinationSafe {
          unsafeNeighbors := unsafeNeighbors + [potentialDestination];
        }
      }
    }
    assert neighbors[..|neighbors|] == neighbors;
  }

  /** One order of `troopChunk` per destination, appended in order. */
  method SendChunks(me: string, fromRegion: RegionId, dests: seq<RegionId>, troopChunk: int) returns (orders: seq<Order>)
    ensures orders == SendAll(me, fromRegion, dests, troopChunk)
  {
    orders := [];
    for i := 0 to |dests|
      invariant orders == SendAll(me, fromRegion, dests[..i], troopChunk)
    {
      assert dests[..i + 1][..i] == dests[..i];
      orders := orders + [Order(me, fromRegion, dests[i], troopChunk)];
    }
    assert dests[..|dests|] == dests;
  }
}
