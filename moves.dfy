/** The orders the planner hands back, and the two Java runtime failures
    its code can reach. */
module Moves {
  import opened Regions

  /** PlaceArmiesMove: put `armies` new units on `region`. */
  datatype Placement = Placement(player: string, region: RegionId, armies: int)

  /** AttackTransferMove: move `armies` units from `source` to `target`. */
  datatype Order = Order(player: string, source: RegionId, target: RegionId, armies: int)

  /** The unchecked exceptions the planner's code can throw. */
  datatype Failure = IndexOutOfBounds | DivisionByZero

  datatype Result<T> = Ok(value: T) | Err(failure: Failure)

  /** Units placed by a list of placements. */
  function PlacedTotal(moves: seq<Placement>): int
  {
    if moves == [] then 0 else PlacedTotal(moves[..|moves| - 1]) + moves[|moves| - 1].armies
  }

  /** Units sent by a list of orders. */
  function SentTotal(orders: seq<Order>): int
  {
    if orders == [] then 0 else SentTotal(orders[..|orders| - 1]) + orders[|orders| - 1].armies
  }

  lemma {:induction false} SentTotalAppend(a: seq<Order>, b: seq<Order>)
    ensures SentTotal(a + b) == SentTotal(a) + SentTotal(b)
  {
    if b == [] {
      assert a + b == a;
    } else {
      assert (a + b)[..|a + b| - 1] == a + b[..|b| - 1];
      SentTotalAppend(a, b[..|b| - 1]);
    }
  }

  lemma {:induction false} PlacedTotalAppend(a: seq<Placement>, b: seq<Placement>)
    ensures PlacedTotal(a + b) == PlacedTotal(a) + PlacedTotal(b)
  {
    if b == [] {
      assert a + b == a;
    } else {
      assert (a + b)[..|a + b| - 1] == a + b[..|b| - 1];
      PlacedTotalAppend(a, b[..|b| - 1]);
    }
  }
}
