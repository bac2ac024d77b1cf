/** The deterministic parts of the speech client's objectives: where
    "move n tiles" goes, which tiles "hoe a plot" covers, which hoe-dirt tiles
    the watering and planting objectives visit, and the hand-off between the
    active and the pending objective. */
module Objective {
  import opened Common

  type Tile = (int, int)

  /** Facing directions, as the game numbers them. */
  const North: int := 0
  const East: int := 1
  const South: int := 2
  const West: int := 3

  // ---------------------------------------------------------------------
  // Moving n tiles.
  // ---------------------------------------------------------------------

  /** The `ValueError` of a direction that is not one of the four names. */
  datatype ObjectiveError = UnexpectedDirection(direction: string)

  predicate IsCompassName(direction: string) {
    direction == "north" || direction == "east" || direction == "south" || direction == "west"
  }

  function Abs(x: int): nat {
    if x < 0 then -x else x
  }

  /** The target tile of `MoveNTilesObjective`, from the player's tile
      `(fromX, fromY)`; y grows southwards. */
  method MoveNTilesTarget(direction: string, n: int, fromX: int, fromY: int)
    returns (r: Result<Tile, ObjectiveError>)
    ensures r.Failure? <==> !IsCompassName(direction)
    ensures r.Failure? ==> r.error == UnexpectedDirection(direction)
    ensures direction == "north" ==> r == Success((fromX, fromY - n))
    ensures direction == "south" ==> r == Success((fromX, fromY + n))
    ensures direction == "east" ==> r == Success((fromX + n, fromY))
    ensures direction == "west" ==> r == Success((fromX - n, fromY))
    // one axis only, n tiles away
    ensures r.Success? ==>
      && (r.value.0 == fromX || r.value.1 == fromY)
      && Abs(r.value.0 - fromX) + Abs(r.value.1 - fromY) == Abs(n)
  {
    var toX, toY := fromX, fromY;
    if direction == "north" {
      toY := toY - n;
    } else if direction == "east" {
      toX := toX + n;
    } else if direction == "south" {
      toY := toY + n;
    } else if direction == "west" {
      toX := toX - n;
    } else {
      return Failure(UnexpectedDirection(direction));
    }
    return Success((toX, toY));
  }

  // ---------------------------------------------------------------------
  // Hoeing a plot.
  // ---------------------------------------------------------------------

  /** The plot grows west when the player last faced west, east otherwise. */
  function XIncrement(lastFacedEastWest: int): (r: int)
    ensures r == -1 || r == 1
    ensures r == -1 <==> lastFacedEastWest == West
  {
    if lastFacedEastWest == West then -1 else 1
  }

  /** The plot grows north when the player last faced north, south otherwise. */
  function YIncrement(lastFacedNorthSouth: int): (r: int)
    ensures r == -1 || r == 1
    ensures r == -1 <==> lastFacedNorthSouth == North
  {
    if lastFacedNorthSouth == North then -1 else 1
  }

  /** The `n1` by `n2` rectangle of tiles from `start`, stepping by the
      increments. */
  function PlotSet(start: Tile, n1: int, n2: int, xInc: int, yInc: int): set<Tile> {
    set i: int, j: int | 0 <= i < n1 && 0 <= j < n2 :: (start.0 + i * xInc, start.1 + j * yInc)
  }

  /** Column `i` of the plot, its first `m` tiles. */
  function PlotColumn(start: Tile, i: int, m: int, xInc: int, yInc: int): set<Tile> {
    set j: int | 0 <= j < m :: (start.0 + i * xInc, start.1 + j * yInc)
  }

  lemma PlotStep(start: Tile, i: nat, n2: int, xInc: int, yInc: int)
    ensures PlotSet(start, i + 1, n2, xInc, yInc) ==
      PlotSet(start, i, n2, xInc, yInc) + PlotColumn(start, i, n2, xInc, yInc)
  {
    var lhs := PlotSet(start, i + 1, n2, xInc, yInc);
    var rhs := PlotSet(start, i, n2, xInc, yInc) + PlotColumn(start, i, n2, xInc, yInc);
    forall t | t in lhs ensures t in rhs {
      var a, b :| 0 <= a < i + 1 && 0 <= b < n2 && t == (start.0 + a * xInc, start.1 + b * yInc);
      if a == i {
        assert t in PlotColumn(start, i, n2, xInc, yInc);
      } else {
        assert t in PlotSet(start, i, n2, xInc, yInc);
      }
    }
  }

  lemma ColumnStep(start: Tile, i: int, j: nat, xInc: int, yInc: int)
    ensures PlotColumn(start, i, j + 1, xInc, yInc) ==
      PlotColumn(start, i, j, xInc, yInc) + {(start.0 + i * xInc, start.1 + j * yInc)}
  {
  }

  lemma EmptyColumn(start: Tile, i: int, m: int, xInc: int, yInc: int)
    requires m <= 0
    ensures PlotColumn(start, i, m, xInc, yInc) == {}
  {
  }

  lemma EmptyPlot(start: Tile, n1: int, n2: int, xInc: int, yInc: int)
    requires n1 <= 0
    ensures PlotSet(start, n1, n2, xInc, yInc) == {}
  {
  }

  /** `HoePlotObjective`'s plot tiles, from the tile in front of the player and
      the directions the player last faced. */
  method HoePlotTiles(start: Tile, n1: int, n2: int, lastFacedEastWest: int, lastFacedNorthSouth: int)
    returns (plotTiles: set<Tile>)
    ensures plotTiles == PlotSet(start, n1, n2, XIncrement(lastFacedEastWest), YIncrement(lastFacedNorthSouth))
  {
    plotTiles := {};
    var xIncrement := XIncrement(lastFacedEastWest);
    var yIncrement := YIncrement(lastFacedNorthSouth);
    var i := 0;
    while i < n1
      invariant 0 <= i && (i == 0 || i <= n1)
      invariant plotTiles == PlotSet(start, i, n2, xIncrement, yIncrement)
    {
      var x := start.0 + i * xIncrement;
      var j := 0;
      while j < n2
        invariant 0 <= j && (j == 0 || j <= n2)
        invariant plotTiles == PlotSet(start, i, n2, xIncrement, yIncrement) + PlotColumn(start, i, j, xIncrement, yIncrement)
      {
        var y := start.1 + j * yIncrement;
        ColumnStep(start, i, j, xIncrement, yIncrement);
        plotTiles := plotTiles + {(x, y)};
        j := j + 1;
      }
      if n2 < 0 {
        EmptyColumn(start, i, j, xIncrement, yIncrement);
        EmptyColumn(start, i, n2, xIncrement, yIncrement);
      } else {
        assert j == n2;
      }
      PlotStep(start, i, n2, xIncrement, yIncrement);
      i := i + 1;
    }
    if n1 < 0 {
      EmptyPlot(start, n1, n2, xIncrement, yIncrement);
    } else {
      assert i == n1;
    }
  }

  /** Unit steps along one axis never revisit an offset. */
  lemma UnitStepsDistinct(a: int, b: int, inc: int)
    requires inc == 1 || inc == -1
    requires a != b
    ensures a * inc != b * inc
  {
    if inc == 1 {
      assert a * inc == a && b * inc == b;
    } else {
      assert a * inc == -a && b * inc == -b;
    }
  }

  lemma {:induction false} ColumnSize(start: Tile, i: int, m: nat, xInc: int, yInc: int)
    requires yInc == 1 || yInc == -1
    ensures |PlotColumn(start, i, m, xInc, yInc)| == m
  {
    if m > 0 {
      ColumnSize(start, i, m - 1, xInc, yInc);
      ColumnStep(start, i, m - 1, xInc, yInc);
      forall j | 0 <= j < m - 1
        ensures (start.0 + i * xInc, start.1 + j * yInc) != (start.0 + i * xInc, start.1 + (m - 1) * yInc)
      {
        UnitStepsDistinct(j, m - 1, yInc);
      }
    }
  }

  /** Earlier columns of the plot do not meet column `c`. */
  lemma ColumnsDisjoint(start: Tile, c: nat, n2: int, xInc: int, yInc: int)
    requires xInc == 1 || xInc == -1
    ensures PlotSet(start, c, n2, xInc, yInc) * PlotColumn(start, c, n2, xInc, yInc) == {}
  {
    forall a: int, b: int | 0 <= a < c && 0 <= b < n2
      ensures (start.0 + a * xInc, start.1 + b * yInc) !in PlotColumn(start, c, n2, xInc, yInc)
    {
      UnitStepsDistinct(a, c, xInc);
    }
  }

  /** With unit increments the plot has exactly `n1 * n2` distinct tiles. */
  lemma {:induction false} PlotSize(start: Tile, n1: nat, n2: nat, xInc: int, yInc: int)
    requires xInc == 1 || xInc == -1
    requires yInc == 1 || yInc == -1
    ensures |PlotSet(start, n1, n2, xInc, yInc)| == n1 * n2
  {
    if n1 == 0 {
      EmptyPlot(start, n1, n2, xInc, yInc);
    } else {
      PlotSize(start, n1 - 1, n2, xInc, yInc);
      PlotSizeStep(start, n1 - 1, n2, xInc, yInc);
      MulSucc(n1 - 1, n2);
    }
  }

  /** One more column adds `n2` new tiles. */
  lemma PlotSizeStep(start: Tile, c: nat, n2: nat, xInc: int, yInc: int)
    requires xInc == 1 || xInc == -1
    requires yInc == 1 || yInc == -1
    ensures |PlotSet(start, c + 1, n2, xInc, yInc)| == |PlotSet(start, c, n2, xInc, yInc)| + n2
  {
    PlotStep(start, c, n2, xInc, yInc);
    ColumnSize(start, c, n2, xInc, yInc);
    ColumnsDisjoint(start, c, n2, xInc, yInc);
    DisjointUnionSize(PlotSet(start, c, n2, xInc, yInc), PlotColumn(start, c, n2, xInc, yInc));
  }

  lemma DisjointUnionSize<T>(a: set<T>, b: set<T>)
    requires a * b == {}
    ensures |a + b| == |a| + |b|
  {
  }

  lemma MulSucc(k: nat, n: nat)
    ensures k * n + n == (k + 1) * n
  {
  }

  /** The plot of `HoePlotObjective` has one tile per (column, row) pair, and
      none when either count is not positive. */
  lemma HoePlotSize(start: Tile, n1: int, n2: int, lastFacedEastWest: int, lastFacedNorthSouth: int)
    ensures var plot := PlotSet(start, n1, n2, XIncrement(lastFacedEastWest), YIncrement(lastFacedNorthSouth));
      && (n1 >= 0 && n2 >= 0 ==> |plot| == n1 * n2)
      && (n1 <= 0 || n2 <= 0 ==> plot == {})
  {
    if n1 >= 0 && n2 >= 0 {
      PlotSize(start, n1, n2, XIncrement(lastFacedEastWest), YIncrement(lastFacedNorthSouth));
    }
  }

  // ---------------------------------------------------------------------
  // Hoe-dirt filters.
  // ---------------------------------------------------------------------

  /** A hoe-dirt tile as the game reports it; `hasCrop` is the truth value
      of its `crop` entry. */
  datatype HoeDirt = HoeDirt(tileX: int, tileY: int, hasCrop: bool, isWatered: bool, canPlantThisSeedHere: bool)

  predicate NeedsWater(t: HoeDirt) {
    t.hasCrop && !t.isWatered
  }

  predicate CanPlant(t: HoeDirt) {
    t.canPlantThisSeedHere
  }

  /** `get_unwatered_crops`: the tiles with a crop that is not watered, in
      the order the game listed them, each as often as listed. */
  function UnwateredCrops(tiles: seq<HoeDirt>): (r: seq<HoeDirt>)
    ensures forall t :: t in r <==> t in tiles && t.hasCrop && !t.isWatered
    ensures IsSubsequence(r, tiles)
    ensures forall t: HoeDirt :: t.hasCrop && !t.isWatered ==> multiset(r)[t] == multiset(tiles)[t]
  {
    FilterIsSubsequence(tiles, NeedsWater);
    FilterCount(tiles, NeedsWater);
    Filter(tiles, NeedsWater)
  }

  /** `get_hoe_dirt` of the planting objective: the tiles where the seed can
      be planted, in the order the game listed them, each as often as listed. */
  function PlantableHoeDirt(tiles: seq<HoeDirt>): (r: seq<HoeDirt>)
    ensures forall t :: t in r <==> t in tiles && t.canPlantThisSeedHere
    ensures IsSubsequence(r, tiles)
    ensures forall t: HoeDirt :: t.canPlantThisSeedHere ==> multiset(r)[t] == multiset(tiles)[t]
  {
    FilterIsSubsequence(tiles, CanPlant);
    FilterCount(tiles, CanPlant);
    Filter(tiles, CanPlant)
  }

  /** Filtering a longer listing keeps the earlier part's result in front. */
  lemma HoeDirtFiltersAppend(a: seq<HoeDirt>, b: seq<HoeDirt>)
    ensures UnwateredCrops(a + b) == UnwateredCrops(a) + UnwateredCrops(b)
    ensures PlantableHoeDirt(a + b) == PlantableHoeDirt(a) + PlantableHoeDirt(b)
  {
    FilterAppend(a, b, NeedsWater);
    FilterAppend(a, b, CanPlant);
  }

  // ---------------------------------------------------------------------
  // The active and the pending objective.
  // ---------------------------------------------------------------------

  /** Objectives compared by identity, as Python's `is` does. */
  type ObjectiveId = nat

  /** The module globals `active_objective` and `pending_objective`, with a
      record of the objectives whose run was cancelled and of those started. */
  class ObjectiveSlots {
    var active: Option<ObjectiveId>
    var pending: Option<ObjectiveId>
    var cancelled: seq<ObjectiveId>
    var started: seq<ObjectiveId>

    /** The running objective is never also the one waiting to start. */
    predicate Valid()
      reads this
    {
      active.Some? ==> pending != active
    }

    constructor ()
      ensures Valid()
      ensures active == None && pending == None && cancelled == [] && started == []
    {
      active, pending, cancelled, started := None, None, [], [];
    }

    /** `get_active_objective`. */
    function GetActiveObjective(): (r: Option<ObjectiveId>)
      reads this
      ensures r == active
    {
      active
    }

    /** `cancel_active_objective`: a running objective is cancelled; then
        there is none. */
    method CancelActiveObjective()
      modifies this
      ensures Valid()
      ensures active == None
      ensures cancelled == old(cancelled) + (if old(active).Some? then [old(active).value] else [])
      ensures pending == old(pending) && started == old(started)
    {
      if active.Some? {
        cancelled := cancelled + [active.value];
      }
      active := None;
    }

    /** `new_active_objective`. The only point where another request can
        come in is the wait for the cancellation, which happens only when an
        objective is running; `overtakenBy` is the objective such a request
        made pending meanwhile, if any, and has no effect when nothing ran.
        The new objective starts only if it is still the pending one
        afterwards. */
    method NewActiveObjective(newObjective: ObjectiveId, overtakenBy: Option<ObjectiveId>)
      requires Valid()
      modifies this
      ensures Valid()
      ensures cancelled == old(cancelled) + (if old(active).Some? then [old(active).value] else [])
      ensures old(active).None? || overtakenBy.None? || overtakenBy == Some(newObjective) ==>
        && active == Some(newObjective)
        && pending == None
        && started == old(started) + [newObjective]
      ensures old(active).Some? && overtakenBy.Some? && overtakenBy != Some(newObjective) ==>
        && active == None
        && pending == overtakenBy
        && started == old(started)
    {
      var waited := active.Some?;
      pending := Some(newObjective);
      CancelActiveObjective();
      if waited && overtakenBy.Some? {
        pending := overtakenBy;
      }
      if pending == Some(newObjective) {
        pending := None;
        active := Some(newObjective);
        started := started + [newObjective];
      }
    }
  }
}
