/**
 * The tutorial producers players are invited to edit: a small house, a
 * colourful stepped tower, a maze with gaps, and three unfinished stubs.
 * Each is an append loop over a local list and is specified here by the
 * list it returns.
 */
module MyFirstWorld {
  import opened Entries
  import opened Grid
  import opened World

  // ---------------------------------------------------------------------
  // my_awesome_world: a 5 x 5 house with a floor, border walls and a roof

  const HouseSize: nat := 5

  /** The roof entry (x, 2, z) of a cell. */
  function RoofCell(c: Cell): Entry
  {
    Triple(c.x, 2, c.z)
  }

  /** The floor: the ground layer of the 5 x 5 square, row by row. */
  function Floor(): seq<Entry>
  {
    Sweep(HouseSize, HouseSize, 0, GroundCell)
  }

  /** The roof: the layer at height 2 of the 5 x 5 square, row by row. */
  function Roof(): seq<Entry>
  {
    Sweep(HouseSize, HouseSize, 0, RoofCell)
  }

  /** The front and back walls appended for x = 0 .. n - 1, front then back for each x. */
  function FrontBack(n: nat): seq<Entry>
  {
    if n == 0 then []
    else FrontBack(n - 1) + [Triple(n - 1, 1, 0), Triple(n - 1, 1, HouseSize - 1)]
  }

  /** The left and right walls appended for z = 1 .. n - 1, left then right for each z. */
  function Sides(n: nat): seq<Entry>
    requires n >= 1
  {
    if n == 1 then []
    else Sides(n - 1) + [Triple(0, 1, n - 1), Triple(HouseSize - 1, 1, n - 1)]
  }

  /** All the walls: front and back over the full width, then the sides without the corners. */
  function Walls(): seq<Entry>
  {
    FrontBack(HouseSize) + Sides(HouseSize - 1)
  }

  function MyAwesomeWorldSpec(): seq<Entry>
  {
    Floor() + Walls() + Roof()
  }

  /** One pass of the front-and-back loop appends the front then the back wall block of column x. */
  lemma FrontBackStep(pre: seq<Entry>, x: nat)
    ensures pre + FrontBack(x + 1) == pre + FrontBack(x) + [Triple(x, 1, 0)] + [Triple(x, 1, HouseSize - 1)]
  {
  }

  /** One pass of the side loop appends the left then the right wall block of row z. */
  lemma SidesStep(pre: seq<Entry>, z: nat)
    requires z >= 1
    ensures pre + Sides(z + 1) == pre + Sides(z) + [Triple(0, 1, z)] + [Triple(HouseSize - 1, 1, z)]
  {
  }

  method MyAwesomeWorld() returns (blocks: seq<Entry>)
    ensures blocks == MyAwesomeWorldSpec()
  {
    blocks := [];
    for x := 0 to HouseSize
      invariant blocks == Sweep(HouseSize, x, 0, GroundCell)
    {
      for z := 0 to HouseSize
        invariant blocks == Sweep(HouseSize, x, z, GroundCell)
      {
        blocks := blocks + [Triple(x, 0, z)];
      }
    }
    ghost var floor := blocks;
    for x := 0 to HouseSize
      invariant blocks == floor + FrontBack(x)
    {
      FrontBackStep(floor, x);
      blocks := blocks + [Triple(x, 1, 0)];
      blocks := blocks + [Triple(x, 1, HouseSize - 1)];
    }
    for z := 1 to HouseSize - 1
      invariant blocks == floor + FrontBack(HouseSize) + Sides(z)
    {
      SidesStep(floor + FrontBack(HouseSize), z);
      blocks := blocks + [Triple(0, 1, z)];
      blocks := blocks + [Triple(HouseSize - 1, 1, z)];
    }
    ghost var below := blocks;
    assert below == Floor() + Walls();
    for x := 0 to HouseSize
      invariant blocks == below + Sweep(HouseSize, x, 0, RoofCell)
    {
      for z := 0 to HouseSize
        invariant blocks == below + Sweep(HouseSize, x, z, RoofCell)
      {
        SweepStep(below, HouseSize, x, z, RoofCell);
        blocks := blocks + [Triple(x, 2, z)];
      }
      SweepNextRow(HouseSize, x, RoofCell);
    }
  }

  /** Whether (x, z) is a cell on the border of the 5 x 5 square. */
  predicate IsBorderCell(x: int, z: int)
  {
    0 <= x < HouseSize && 0 <= z < HouseSize && (x == 0 || x == HouseSize - 1 || z == 0 || z == HouseSize - 1)
  }

  /** Whether `e` is a wall block: a tuple at height 1 on a border cell. */
  predicate IsWallBlock(e: Entry)
  {
    e.Tup? && |e.items| == 3 && e.items[1] == 1 && IsBorderCell(e.items[0], e.items[2])
  }

  /** The front and back walls of columns 0 .. n - 1: border blocks with z at 0 or 4, no repeats. */
  lemma {:induction false} FrontBackShape(n: nat)
    requires n <= HouseSize
    ensures |FrontBack(n)| == 2 * n
    ensures forall i :: 0 <= i < |FrontBack(n)| ==>
      IsWallBlock(FrontBack(n)[i]) && FrontBack(n)[i].items[0] < n &&
      (FrontBack(n)[i].items[2] == 0 || FrontBack(n)[i].items[2] == HouseSize - 1)
    ensures Distinct(FrontBack(n))
  {
    if n > 0 {
      FrontBackShape(n - 1);
      var init := FrontBack(n - 1);
      var tail := [Triple(n - 1, 1, 0), Triple(n - 1, 1, HouseSize - 1)];
      DistinctAppend(init, tail);
    }
  }

  /** The side walls of rows 1 .. n - 1: border blocks with x at 0 or 4 and z strictly inside, no repeats. */
  lemma {:induction false} SidesShape(n: nat)
    requires 1 <= n <= HouseSize - 1
    ensures |Sides(n)| == 2 * (n - 1)
    ensures forall i :: 0 <= i < |Sides(n)| ==>
      IsWallBlock(Sides(n)[i]) && 1 <= Sides(n)[i].items[2] < n &&
      (Sides(n)[i].items[0] == 0 || Sides(n)[i].items[0] == HouseSize - 1)
    ensures Distinct(Sides(n))
  {
    if n > 1 {
      SidesShape(n - 1);
      var init := Sides(n - 1);
      var tail := [Triple(0, 1, n - 1), Triple(HouseSize - 1, 1, n - 1)];
      DistinctAppend(init, tail);
    }
  }

  /** Column x of the front and back walls is present once the loop has passed it. */
  lemma {:induction false} FrontBackHas(n: nat, x: int, z: int)
    requires 0 <= x < n && (z == 0 || z == HouseSize - 1)
    ensures Triple(x, 1, z) in FrontBack(n)
  {
    if x < n - 1 {
      FrontBackHas(n - 1, x, z);
    }
  }

  /** Row z of the side walls is present once the loop has passed it. */
  lemma {:induction false} SidesHas(n: nat, x: int, z: int)
    requires 1 <= z < n && (x == 0 || x == HouseSize - 1)
    ensures Triple(x, 1, z) in Sides(n)
  {
    if z < n - 1 {
      SidesHas(n - 1, x, z);
    }
  }

  /**
   * The walls are the 16 border cells at height 1, each exactly once: the
   * side loop skips the corners the front and back loop has already laid,
   * and the interior of the house stays free.
   */
  lemma WallsShape()
    ensures |Walls()| == 16
    ensures forall i :: 0 <= i < |Walls()| ==> IsWallBlock(Walls()[i])
    ensures forall x, z :: IsBorderCell(x, z) ==> Triple(x, 1, z) in Walls()
    ensures Distinct(Walls())
  {
    WallsOnBorder();
    WallsComplete();
    WallsDistinct();
  }

  lemma WallsOnBorder()
    ensures |Walls()| == 16
    ensures forall i :: 0 <= i < |Walls()| ==> IsWallBlock(Walls()[i])
  {
    var fb := FrontBack(HouseSize);
    var sides := Sides(HouseSize - 1);
    FrontBackShape(HouseSize);
    SidesShape(HouseSize - 1);
    forall i | 0 <= i < |fb + sides|
      ensures IsWallBlock((fb + sides)[i])
    {
      if i < |fb| {
        assert (fb + sides)[i] == fb[i];
      } else {
        assert (fb + sides)[i] == sides[i - |fb|];
      }
    }
  }

  lemma WallsComplete()
    ensures forall x, z :: IsBorderCell(x, z) ==> Triple(x, 1, z) in Walls()
  {
    forall x, z | IsBorderCell(x, z)
      ensures Triple(x, 1, z) in Walls()
    {
      if z == 0 || z == HouseSize - 1 {
        FrontBackHas(HouseSize, x, z);
      } else {
        SidesHas(HouseSize - 1, x, z);
      }
    }
  }

  lemma WallsDistinct()
    ensures Distinct(Walls())
  {
    var fb := FrontBack(HouseSize);
    var sides := Sides(HouseSize - 1);
    FrontBackShape(HouseSize);
    SidesShape(HouseSize - 1);
    DistinctAppend(fb, sides);
  }

  /** The floor and the roof each cover the 5 x 5 square once, at heights 0 and 2. */
  lemma FloorAndRoofShape()
    ensures |Floor()| == |Roof()| == HouseSize * HouseSize
    ensures forall i :: 0 <= i < |Floor()| ==> TupleWithin(Floor()[i], HouseSize, 0, 0)
    ensures forall i :: 0 <= i < |Roof()| ==> TupleWithin(Roof()[i], HouseSize, 2, 2)
    ensures Distinct(Floor()) && Distinct(Roof())
  {
    SquareLayerShape(HouseSize, GroundCell, 0);
    SquareLayerShape(HouseSize, RoofCell, 2);
  }

  /** How many blocks the house has at height h: 25 on the floor and the roof, 16 in the walls. */
  function HouseLevelSize(h: int): nat
  {
    if h == 0 || h == 2 then HouseSize * HouseSize
    else if h == 1 then 16
    else 0
  }

  /** The house has 25 blocks at height 0, 16 at height 1, 25 at height 2 and none elsewhere; 66 in all. */
  lemma HouseCounts()
    ensures |MyAwesomeWorldSpec()| == 66
    ensures forall h :: CountAtHeight(MyAwesomeWorldSpec(), h) == HouseLevelSize(h)
  {
    FloorAndRoofShape();
    WallsOnBorder();
    forall h
      ensures CountAtHeight(MyAwesomeWorldSpec(), h) == HouseLevelSize(h)
    {
      HouseCountAt(h);
    }
  }

  lemma HouseCountAt(h: int)
    ensures CountAtHeight(MyAwesomeWorldSpec(), h) == HouseLevelSize(h)
  {
    var floor, walls, roof := Floor(), Walls(), Roof();
    FloorAndRoofShape();
    WallsOnBorder();
    CountAtHeightAppend(floor + walls, roof, h);
    CountAtHeightAppend(floor, walls, h);
    CountAtHeightUniform(floor, 0, h);
    CountAtHeightUniform(walls, 1, h);
    CountAtHeightUniform(roof, 2, h);
  }

  /** No block of the house is laid twice. */
  lemma HouseDistinct()
    ensures Distinct(MyAwesomeWorldSpec())
  {
    var floor, walls, roof := Floor(), Walls(), Roof();
    FloorAndRoofShape();
    WallsOnBorder();
    WallsDistinct();
    DistinctAppend(floor, walls);
    var lower: seq<Entry> := floor + walls;
    forall i | 0 <= i < |lower|
      ensures lower[i].Tup? && |lower[i].items| == 3 && lower[i].items[1] <= 1
    {
      if i < |floor| {
        assert lower[i] == floor[i];
      } else {
        assert lower[i] == walls[i - |floor|];
      }
    }
    DistinctAppend(lower, roof);
  }

  /**
   * The house: 66 distinct tuples, 25 on the floor, 16 in the walls and 25 on
   * the roof, and every wall block on the border of the square.
   */
  lemma MyAwesomeWorldShape()
    ensures |MyAwesomeWorldSpec()| == 66
    ensures forall h :: CountAtHeight(MyAwesomeWorldSpec(), h) == HouseLevelSize(h)
    ensures Distinct(MyAwesomeWorldSpec())
    ensures forall i :: 0 <= i < |MyAwesomeWorldSpec()| && AtHeight(MyAwesomeWorldSpec()[i], 1) ==>
      IsWallBlock(MyAwesomeWorldSpec()[i])
  {
    HouseCounts();
    HouseDistinct();
    HouseWallsOnBorder();
  }

  /** Every block of the house at height 1 lies on the border. */
  lemma HouseWallsOnBorder()
    ensures forall i :: 0 <= i < |MyAwesomeWorldSpec()| && AtHeight(MyAwesomeWorldSpec()[i], 1) ==>
      IsWallBlock(MyAwesomeWorldSpec()[i])
  {
    var floor, walls, roof := Floor(), Walls(), Roof();
    var house := MyAwesomeWorldSpec();
    FloorAndRoofShape();
    WallsOnBorder();
    forall i | 0 <= i < |house|
      ensures AtHeight(house[i], 1) ==> IsWallBlock(house[i])
    {
      if i < |floor| {
        assert house[i] == floor[i];
      } else if i < |floor| + |walls| {
        assert house[i] == walls[i - |floor|];
      } else {
        assert house[i] == roof[i - |floor| - |walls|];
      }
    }
  }

  // ---------------------------------------------------------------------
  // colorful_tower: eight square levels, narrowing every two levels

  const TowerHeight: nat := 8

  /** The side of level y: 5, shrinking by one every two levels. */
  function TowerWidth(y: nat): nat
    requires y <= TowerHeight
  {
    5 - y / 2
  }

  /** The colour of level y: red, then orange, yellow and blue bands going up. */
  function TowerColor(y: nat): (c: Color)
    ensures y == 0 ==> c == Red
    ensures 1 <= y <= 2 ==> c == Orange
    ensures 3 <= y <= 4 ==> c == Yellow
    ensures 5 <= y ==> c == Blue
  {
    if y == 0 then Red
    else if y < 3 then Orange
    else if y < 5 then Yellow
    else Blue
  }

  /** The f-string `tower_level_{y}`. */
  function TowerLevelName(y: nat): string
  {
    "tower_level_" + NatToString(y)
  }

  /** The block appended for cell (x, z) of level y. */
  function TowerEntry(y: nat, x: int, z: int): Entry
  {
    Detailed(x, y, z, TowerColor(y), TowerLevelName(y))
  }

  /** The loop counters (y, x, z) the three loops can reach, and (8, 0, 0) once they are done. */
  predicate TowerStage(y: nat, x: nat, z: nat)
  {
    || (y < TowerHeight && x < TowerWidth(y) && z <= TowerWidth(y))
    || (y < TowerHeight && x == TowerWidth(y) && z == 0)
    || (y == TowerHeight && x == 0 && z == 0)
  }

  /** The list `blocks` holds when iteration (y, x, z) of the three loops is about to run. */
  function TowerSoFar(y: nat, x: nat, z: nat): seq<Entry>
    requires y <= TowerHeight
    decreases y, x, z
  {
    if z > 0 then TowerSoFar(y, x, z - 1) + [TowerEntry(y, x, z - 1)]
    else if x > 0 then TowerSoFar(y, x - 1, TowerWidth(y))
    else if y > 0 then TowerSoFar(y - 1, TowerWidth(y - 1), 0)
    else []
  }

  function ColorfulTowerSpec(): seq<Entry>
  {
    TowerSoFar(TowerHeight, 0, 0)
  }

  method ColorfulTower() returns (blocks: seq<Entry>)
    ensures blocks == ColorfulTowerSpec()
  {
    blocks := [];
    for y := 0 to TowerHeight
      invariant blocks == TowerSoFar(y, 0, 0)
    {
      var size := 5 - y / 2;
      var blockColor := PickLevelColor(y);
      for x := 0 to size
        invariant blocks == TowerSoFar(y, x, 0)
      {
        for z := 0 to size
          invariant blocks == TowerSoFar(y, x, z)
        {
          var block := Detailed(x, y, z, blockColor, "tower_level_" + NatToString(y));
          TowerAppend(y, x, z, blocks, block);
          blocks := blocks + [block];
        }
        TowerNextRow(y, x, blocks);
      }
      TowerNextLayer(y, blocks);
    }
  }

  /** The colour branch at the top of each level of the tower loop. */
  method PickLevelColor(y: nat) returns (blockColor: Color)
    ensures blockColor == TowerColor(y)
  {
    if y == 0 {
      blockColor := Red;
    } else if y < 3 {
      blockColor := Orange;
    } else if y < 5 {
      blockColor := Yellow;
    } else {
      blockColor := Blue;
    }
  }

  /** One pass of the innermost loop appends the block of cell (x, z) of level y. */
  lemma TowerAppend(y: nat, x: nat, z: nat, blocks: seq<Entry>, block: Entry)
    requires y < TowerHeight && x < TowerWidth(y) && z < TowerWidth(y)
    requires blocks == TowerSoFar(y, x, z) && block == Detailed(x, y, z, TowerColor(y), "tower_level_" + NatToString(y))
    ensures blocks + [block] == TowerSoFar(y, x, z + 1)
  {
  }

  /** The end of row x is the start of row x + 1. */
  lemma TowerNextRow(y: nat, x: nat, blocks: seq<Entry>)
    requires y < TowerHeight && x < TowerWidth(y) && blocks == TowerSoFar(y, x, TowerWidth(y))
    ensures blocks == TowerSoFar(y, x + 1, 0)
  {
  }

  /** The end of level y is the start of level y + 1. */
  lemma TowerNextLayer(y: nat, blocks: seq<Entry>)
    requires y < TowerHeight && blocks == TowerSoFar(y, TowerWidth(y), 0)
    ensures blocks == TowerSoFar(y + 1, 0, 0)
  {
  }

  /** How many blocks tower level `h` holds: (5 - h / 2)^2 on heights 0 to 7, none elsewhere. */
  function TowerLevelSize(h: int): nat
  {
    if 0 <= h < TowerHeight then TowerWidth(h) * TowerWidth(h) else 0
  }

  /** How many blocks lie at height h when iteration (y, x, z) is about to run. */
  function TowerCountSoFar(y: nat, x: nat, z: nat, h: int): nat
    requires TowerStage(y, x, z)
  {
    if h < y then TowerLevelSize(h)
    else if h == y && y < TowerHeight then x * TowerWidth(y) + z
    else 0
  }

  /** A tower block of level y lies at height y: it is counted at h exactly when h == y. */
  lemma TowerEntryHeight(y: nat, a: int, b: int, h: int)
    ensures AtHeight(TowerEntry(y, a, b), h) <==> h == y
  {
    assert EntryPos(TowerEntry(y, a, b)) == Some(Pos(a, y, b));
  }

  /** The innermost loop's append adds one block at height y and none elsewhere. */
  lemma TowerCountStep(y: nat, x: nat, z: nat, h: int)
    requires TowerStage(y, x, z) && z > 0
    requires CountAtHeight(TowerSoFar(y, x, z - 1), h) == TowerCountSoFar(y, x, z - 1, h)
    ensures CountAtHeight(TowerSoFar(y, x, z), h) == TowerCountSoFar(y, x, z, h)
  {
    var before := TowerSoFar(y, x, z - 1);
    var e := TowerEntry(y, x, z - 1);
    assert TowerSoFar(y, x, z) == before + [e];
    CountAtHeightSnoc(before, e, h);
    TowerEntryHeight(y, x, z - 1, h);
    assert TowerCountSoFar(y, x, z, h) == TowerCountSoFar(y, x, z - 1, h) + (if h == y then 1 else 0);
  }

  /** A finished row of level y adds its width to the count at height y. */
  lemma TowerCountRow(y: nat, x: nat, h: int)
    requires TowerStage(y, x, 0) && x > 0
    requires CountAtHeight(TowerSoFar(y, x - 1, TowerWidth(y)), h) == TowerCountSoFar(y, x - 1, TowerWidth(y), h)
    ensures CountAtHeight(TowerSoFar(y, x, 0), h) == TowerCountSoFar(y, x, 0, h)
  {
    assert TowerSoFar(y, x, 0) == TowerSoFar(y, x - 1, TowerWidth(y));
    assert (x - 1) * TowerWidth(y) + TowerWidth(y) == x * TowerWidth(y);
  }

  /** A finished level y - 1 holds its full square. */
  lemma TowerCountLayer(y: nat, h: int)
    requires TowerStage(y, 0, 0) && y > 0
    requires CountAtHeight(TowerSoFar(y - 1, TowerWidth(y - 1), 0), h) == TowerCountSoFar(y - 1, TowerWidth(y - 1), 0, h)
    ensures CountAtHeight(TowerSoFar(y, 0, 0), h) == TowerCountSoFar(y, 0, 0, h)
  {
    assert TowerSoFar(y, 0, 0) == TowerSoFar(y - 1, TowerWidth(y - 1), 0);
  }

  /** Along row x of level y the count follows the innermost loop. */
  lemma {:induction false} TowerRowCounts(y: nat, x: nat, z: nat, h: int)
    requires y < TowerHeight && x < TowerWidth(y) && z <= TowerWidth(y)
    requires CountAtHeight(TowerSoFar(y, x, 0), h) == TowerCountSoFar(y, x, 0, h)
    ensures CountAtHeight(TowerSoFar(y, x, z), h) == TowerCountSoFar(y, x, z, h)
    decreases z
  {
    if z > 0 {
      TowerRowCounts(y, x, z - 1, h);
      TowerCountStep(y, x, z, h);
    }
  }

  /** Along level y the count follows the middle loop. */
  lemma {:induction false} TowerLayerCounts(y: nat, x: nat, h: int)
    requires y < TowerHeight && x <= TowerWidth(y)
    requires CountAtHeight(TowerSoFar(y, 0, 0), h) == TowerCountSoFar(y, 0, 0, h)
    ensures CountAtHeight(TowerSoFar(y, x, 0), h) == TowerCountSoFar(y, x, 0, h)
    decreases x
  {
    if x > 0 {
      TowerLayerCounts(y, x - 1, h);
      TowerRowCounts(y, x - 1, TowerWidth(y), h);
      TowerCountRow(y, x, h);
    }
  }

  /** Once level y is about to start, height h holds its full level if it lies below y. */
  lemma {:induction false} TowerSoFarCounts(y: nat, h: int)
    requires y <= TowerHeight
    ensures CountAtHeight(TowerSoFar(y, 0, 0), h) == TowerCountSoFar(y, 0, 0, h)
    decreases y
  {
    if y > 0 {
      TowerSoFarCounts(y - 1, h);
      TowerLayerCounts(y - 1, TowerWidth(y - 1), h);
      TowerCountLayer(y, h);
    }
  }

  /** How many blocks the levels below y hold together. */
  function TowerBelow(y: nat): nat
    requires y <= TowerHeight
  {
    if y == 0 then 0 else TowerBelow(y - 1) + TowerLevelSize(y - 1)
  }

  lemma {:induction false} TowerSoFarLength(y: nat, x: nat, z: nat)
    requires TowerStage(y, x, z)
    ensures |TowerSoFar(y, x, z)| == TowerBelow(y) + (if y < TowerHeight then x * TowerWidth(y) + z else 0)
    decreases y, x, z
  {
    if z > 0 {
      TowerSoFarLength(y, x, z - 1);
    } else if x > 0 {
      TowerSoFarLength(y, x - 1, TowerWidth(y));
      assert (x - 1) * TowerWidth(y) + TowerWidth(y) == x * TowerWidth(y);
    } else if y > 0 {
      TowerSoFarLength(y - 1, TowerWidth(y - 1), 0);
    }
  }

  lemma ColorfulTowerLength()
    ensures |ColorfulTowerSpec()| == 108
  {
    TowerSoFarLength(TowerHeight, 0, 0);
    TowerTotal();
  }

  /** The eight levels hold 25 + 25 + 16 + 16 + 9 + 9 + 4 + 4 blocks. */
  lemma TowerTotal()
    ensures TowerBelow(TowerHeight) == 108
  {
    assert TowerBelow(2) == 50;
    assert TowerBelow(4) == 82;
    assert TowerBelow(6) == 100;
  }

  /** Whether `e` is a block of tower level `y`: its position, type and colour. */
  predicate InTowerLevel(e: Entry, y: nat)
    requires y < TowerHeight
  {
    && EntryPos(e).Some?
    && EntryPos(e).value.y == y
    && 0 <= EntryPos(e).value.x < TowerWidth(y)
    && 0 <= EntryPos(e).value.z < TowerWidth(y)
    && TypeOf(e) == Some(Str(TowerLevelName(y)))
    && ColorOf(e) == Some(Paint(TowerColor(y)))
  }

  /** Whether `e` is a block of some tower level below `n`. */
  predicate InTowerBelow(e: Entry, n: nat)
  {
    && EntryPos(e).Some?
    && 0 <= EntryPos(e).value.y < n
    && EntryPos(e).value.y < TowerHeight
    && InTowerLevel(e, EntryPos(e).value.y)
  }

  /** The block of cell (a, b) of level y is a block of that level. */
  lemma TowerEntryInLevel(y: nat, a: nat, b: nat)
    requires y < TowerHeight && a < TowerWidth(y) && b < TowerWidth(y)
    ensures InTowerLevel(TowerEntry(y, a, b), y)
  {
    assert EntryPos(TowerEntry(y, a, b)) == Some(Pos(a, y, b));
  }

  /** Every block appended so far belongs to a level already visited, with that level's type and colour. */
  lemma {:induction false} TowerSoFarLevels(y: nat, x: nat, z: nat)
    requires TowerStage(y, x, z)
    ensures forall i :: 0 <= i < |TowerSoFar(y, x, z)| ==> InTowerBelow(TowerSoFar(y, x, z)[i], y + 1)
    decreases y, x, z
  {
    if z > 0 {
      TowerSoFarLevels(y, x, z - 1);
      TowerEntryInLevel(y, x, z - 1);
    } else if x > 0 {
      TowerSoFarLevels(y, x - 1, TowerWidth(y));
    } else if y > 0 {
      TowerSoFarLevels(y - 1, TowerWidth(y - 1), 0);
    }
  }

  /** Every cell of every level visited so far has been appended. */
  lemma {:induction false} TowerSoFarComplete(y: nat, x: nat, z: nat, l: nat, a: nat, b: nat)
    requires y <= TowerHeight
    requires l < TowerHeight && a < TowerWidth(l) && b < TowerWidth(l)
    requires l < y || (l == y && (a < x || (a == x && b < z)))
    ensures TowerEntry(l, a, b) in TowerSoFar(y, x, z)
    decreases y, x, z
  {
    if z > 0 {
      if !(l == y && a == x && b == z - 1) {
        TowerSoFarComplete(y, x, z - 1, l, a, b);
      }
    } else if x > 0 {
      TowerSoFarComplete(y, x - 1, TowerWidth(y), l, a, b);
    } else if y > 0 {
      TowerSoFarComplete(y - 1, TowerWidth(y - 1), 0, l, a, b);
    }
  }

  /** Whether `e` lies at a cell the loops visit before iteration (y, x, z): an earlier level, row or column. */
  predicate TowerBefore(e: Entry, y: nat, x: nat, z: nat)
  {
    && EntryPos(e).Some?
    && var p := EntryPos(e).value;
       p.y < y || (p.y == y && (p.x < x || (p.x == x && p.z < z)))
  }

  /** Every block appended so far lies at a cell visited before the current iteration. */
  lemma {:induction false} TowerSoFarBefore(y: nat, x: nat, z: nat)
    requires TowerStage(y, x, z)
    ensures forall i :: 0 <= i < |TowerSoFar(y, x, z)| ==> TowerBefore(TowerSoFar(y, x, z)[i], y, x, z)
    decreases y, x, z
  {
    if z > 0 {
      TowerSoFarBefore(y, x, z - 1);
      assert EntryPos(TowerEntry(y, x, z - 1)) == Some(Pos(x, y, z - 1));
    } else if x > 0 {
      TowerSoFarBefore(y, x - 1, TowerWidth(y));
    } else if y > 0 {
      TowerSoFarBefore(y - 1, TowerWidth(y - 1), 0);
    }
  }

  /** No block is appended twice: each new block lies at a cell not visited before. */
  lemma {:induction false} TowerSoFarDistinct(y: nat, x: nat, z: nat)
    requires TowerStage(y, x, z)
    ensures Distinct(TowerSoFar(y, x, z))
    decreases y, x, z
  {
    if z > 0 {
      TowerSoFarDistinct(y, x, z - 1);
      TowerAppendFresh(y, x, z - 1);
      DistinctSnoc(TowerSoFar(y, x, z - 1), TowerEntry(y, x, z - 1));
    } else if x > 0 {
      TowerSoFarDistinct(y, x - 1, TowerWidth(y));
    } else if y > 0 {
      TowerSoFarDistinct(y - 1, TowerWidth(y - 1), 0);
    }
  }

  /** The block the innermost loop appends is not in the list yet. */
  lemma TowerAppendFresh(y: nat, x: nat, z: nat)
    requires y < TowerHeight && x < TowerWidth(y) && z < TowerWidth(y)
    ensures TowerEntry(y, x, z) !in TowerSoFar(y, x, z)
  {
    TowerSoFarBefore(y, x, z);
    assert EntryPos(TowerEntry(y, x, z)) == Some(Pos(x, y, z));
    assert !TowerBefore(TowerEntry(y, x, z), y, x, z);
  }

  /** The tower holds no block twice. */
  lemma ColorfulTowerDistinct()
    ensures Distinct(ColorfulTowerSpec())
  {
    TowerSoFarDistinct(TowerHeight, 0, 0);
  }

  /**
   * The tower: level y holds (5 - y / 2)^2 blocks and no other height holds
   * any, 108 in all; each is a block of the level it lies on, with that
   * level's type and colour, and every cell of every level is there.
   */
  lemma ColorfulTowerShape()
    ensures forall h :: CountAtHeight(ColorfulTowerSpec(), h) == TowerLevelSize(h)
    ensures |ColorfulTowerSpec()| == 108
    ensures forall i :: 0 <= i < |ColorfulTowerSpec()| ==> InTowerBelow(ColorfulTowerSpec()[i], TowerHeight)
    ensures forall l: nat, a: nat, b: nat :: l < TowerHeight && a < TowerWidth(l) && b < TowerWidth(l) ==>
      TowerEntry(l, a, b) in ColorfulTowerSpec()
  {
    forall h ensures CountAtHeight(ColorfulTowerSpec(), h) == TowerLevelSize(h) {
      TowerSoFarCounts(TowerHeight, h);
    }
    ColorfulTowerLength();
    TowerSoFarLevels(TowerHeight, 0, 0);
    forall l: nat, a: nat, b: nat | l < TowerHeight && a < TowerWidth(l) && b < TowerWidth(l)
      ensures TowerEntry(l, a, b) in ColorfulTowerSpec()
    {
      TowerSoFarComplete(TowerHeight, 0, 0, l, a, b);
    }
  }

  /** The tower builds without an exception into 108 blocks, each with its level's type and colour. */
  lemma ColorfulTowerBuilds()
    ensures Build(ColorfulTowerSpec()).error.None? && |Build(ColorfulTowerSpec()).blocks| == 108
    ensures forall i :: 0 <= i < |Build(ColorfulTowerSpec()).blocks| ==>
      var b := Build(ColorfulTowerSpec()).blocks[i];
      && 0 <= b.position.y < TowerHeight
      && b.blockType == Str(TowerLevelName(b.position.y))
      && b.color == Paint(TowerColor(b.position.y))
  {
    ColorfulTowerShape();
    BuildAllPlace(ColorfulTowerSpec());
  }

  // ---------------------------------------------------------------------
  // maze_world: ground and wall on every cell with an even coordinate, minus six gaps

  const MazeSize: nat := 11

  /** Whether the maze puts a wall on cell (x, z): x or z is even. */
  predicate IsWallCell(x: int, z: int)
  {
    x % 2 == 0 || z % 2 == 0
  }

  /** What the double loop appends for a cell: its ground and its wall block, or nothing. */
  function MazeCell(c: Cell): seq<Entry>
  {
    if IsWallCell(c.x, c.z) then [Triple(c.x, 0, c.z), Triple(c.x, 1, c.z)] else []
  }

  /** The list the double loop holds when iteration (x, z) is about to run. */
  function MazeSoFar(x: nat, z: nat): seq<Entry>
    requires z <= MazeSize
    decreases x, z
  {
    if z > 0 then MazeSoFar(x, z - 1) + MazeCell(Cell(x, z - 1))
    else if x > 0 then MazeSoFar(x - 1, MazeSize)
    else []
  }

  /** The list before any gap is removed. */
  function MazeGrid(): seq<Entry>
  {
    MazeSoFar(MazeSize, 0)
  }

  /** The six wall blocks the maze removes, in the order it removes them. */
  const Gaps: seq<Entry> :=
    [Triple(2, 1, 1), Triple(4, 1, 3), Triple(6, 1, 5), Triple(1, 1, 2), Triple(3, 1, 4), Triple(5, 1, 6)]

  /** The index of the first occurrence of `e` in `s`. */
  function FirstIndex(s: seq<Entry>, e: Entry): (i: nat)
    requires e in s
    ensures i < |s| && s[i] == e && e !in s[..i]
  {
    if s[0] == e then 0
    else
      assert e in s[1..] by {
        var k :| 0 <= k < |s| && s[k] == e;
        assert s[1..][k - 1] == e;
      }
      var j := FirstIndex(s[1..], e);
      assert s[..j + 1] == [s[0]] + s[1..][..j];
      j + 1
  }

  /** Python's `s.remove(e)` on a list holding `e`: its first occurrence goes, the rest keep their order. */
  function RemoveFirst(s: seq<Entry>, e: Entry): (r: seq<Entry>)
    requires e in s
    ensures exists i :: 0 <= i < |s| && s[i] == e && e !in s[..i] && r == s[..i] + s[i + 1..]
    ensures |r| == |s| - 1
    ensures multiset(r) == multiset(s) - multiset{e}
  {
    var i := FirstIndex(s, e);
    assert s == s[..i] + [e] + s[i + 1..];
    s[..i] + s[i + 1..]
  }

  /** The list after the gap loop has handled the first `k` gaps. */
  function RemoveGaps(s: seq<Entry>, k: nat): seq<Entry>
    requires k <= |Gaps|
  {
    if k == 0 then s
    else
      var t := RemoveGaps(s, k - 1);
      if Gaps[k - 1] in t then RemoveFirst(t, Gaps[k - 1]) else t
  }

  function MazeWorldSpec(): seq<Entry>
  {
    RemoveGaps(MazeGrid(), |Gaps|)
  }

  method MazeWorld() returns (blocks: seq<Entry>)
    ensures blocks == MazeWorldSpec()
  {
    blocks := [];
    var mazeSize := MazeSize;
    for x := 0 to mazeSize
      invariant blocks == MazeSoFar(x, 0)
    {
      for z := 0 to mazeSize
        invariant blocks == MazeSoFar(x, z)
      {
        MazeAppend(x, z, blocks);
        if x % 2 == 0 || z % 2 == 0 {
          blocks := blocks + [Triple(x, 0, z)];
          blocks := blocks + [Triple(x, 1, z)];
        }
      }
    }
    var gaps := Gaps;
    for k := 0 to |gaps|
      invariant blocks == RemoveGaps(MazeGrid(), k)
    {
      var gap := gaps[k];
      GapStep(k, blocks);
      if gap in blocks {
        blocks := RemoveFirst(blocks, gap);
      }
    }
  }

  /** One pass of the gap loop removes gap k if the list still holds it. */
  lemma GapStep(k: nat, blocks: seq<Entry>)
    requires k < |Gaps| && blocks == RemoveGaps(MazeGrid(), k)
    ensures (if Gaps[k] in blocks then RemoveFirst(blocks, Gaps[k]) else blocks) == RemoveGaps(MazeGrid(), k + 1)
  {
  }

  /** One pass of the inner loop appends the ground and the wall of a wall cell, and nothing otherwise. */
  lemma MazeAppend(x: nat, z: nat, blocks: seq<Entry>)
    requires z < MazeSize && blocks == MazeSoFar(x, z)
    ensures (if x % 2 == 0 || z % 2 == 0 then blocks + [Triple(x, 0, z)] + [Triple(x, 1, z)] else blocks) ==
      MazeSoFar(x, z + 1)
  {
  }

  /** Whether `e` is a tuple at height 0 or 1 on a wall cell. */
  predicate IsWallTuple(e: Entry)
  {
    && e.Tup? && |e.items| == 3
    && (e.items[1] == 0 || e.items[1] == 1)
    && IsWallCell(e.items[0], e.items[2])
  }

  /** Whether `e` is a maze block: a tuple at height 0 or 1 on a wall cell of the 11 x 11 square. */
  predicate IsMazeBlock(e: Entry)
  {
    IsWallTuple(e) && 0 <= e.items[0] < MazeSize && 0 <= e.items[2] < MazeSize
  }

  /** The cell a maze block stands on. */
  function CellOf(e: Entry): Cell
    requires e.Tup? && |e.items| == 3
  {
    Cell(e.items[0], e.items[2])
  }

  /** Every block appended so far is a maze block on a cell already visited. */
  lemma {:induction false} MazeSoFarSound(x: nat, z: nat)
    requires z <= MazeSize
    ensures forall i :: 0 <= i < |MazeSoFar(x, z)| ==>
      IsWallTuple(MazeSoFar(x, z)[i]) && Visited(CellOf(MazeSoFar(x, z)[i]), MazeSize, x, z)
    decreases x, z
  {
    if z > 0 {
      MazeSoFarSound(x, z - 1);
      var old_ := MazeSoFar(x, z - 1);
      var added := MazeCell(Cell(x, z - 1));
      forall i | 0 <= i < |old_ + added|
        ensures IsWallTuple((old_ + added)[i]) && Visited(CellOf((old_ + added)[i]), MazeSize, x, z)
      {
        if i < |old_| {
          assert (old_ + added)[i] == old_[i];
        } else {
          assert (old_ + added)[i] == added[i - |old_|];
        }
      }
    } else if x > 0 {
      MazeSoFarSound(x - 1, MazeSize);
    }
  }

  /** Both blocks of every wall cell visited so far have been appended. */
  lemma {:induction false} MazeSoFarComplete(x: nat, z: nat, c: Cell, y: int)
    requires z <= MazeSize && Visited(c, MazeSize, x, z) && IsWallCell(c.x, c.z) && (y == 0 || y == 1)
    ensures Triple(c.x, y, c.z) in MazeSoFar(x, z)
    decreases x, z
  {
    if z > 0 {
      if c == Cell(x, z - 1) {
        assert Triple(c.x, y, c.z) in MazeCell(c);
      } else {
        MazeSoFarComplete(x, z - 1, c, y);
      }
    } else if x > 0 {
      MazeSoFarComplete(x - 1, MazeSize, c, y);
    }
  }

  /** No block is appended twice: each cell is visited once and gives two blocks at different heights. */
  lemma {:induction false} MazeSoFarDistinct(x: nat, z: nat)
    requires z <= MazeSize
    ensures Distinct(MazeSoFar(x, z))
    decreases x, z
  {
    if z > 0 {
      MazeSoFarDistinct(x, z - 1);
      MazeSoFarSound(x, z - 1);
      var old_ := MazeSoFar(x, z - 1);
      var added := MazeCell(Cell(x, z - 1));
      forall i, j | 0 <= i < |old_| && 0 <= j < |added|
        ensures old_[i] != added[j]
      {
        assert CellOf(added[j]) == Cell(x, z - 1);
      }
      DistinctAppend(old_, added);
    } else if x > 0 {
      MazeSoFarDistinct(x - 1, MazeSize);
    }
  }

  /** How many wall cells row x holds among its first z cells: all of them on an even row, the even ones otherwise. */
  function RowWalls(x: nat, z: nat): nat
  {
    if x % 2 == 0 then z else (z + 1) / 2
  }

  /** How many wall cells the first x full rows hold: 11 on each even row, 6 on each odd one. */
  function WallsBefore(x: nat): nat
  {
    11 * ((x + 1) / 2) + 6 * (x / 2)
  }

  /** A full row adds its wall cells to those of the rows before it. */
  lemma WallsBeforeStep(x: nat)
    requires x > 0
    ensures WallsBefore(x) == WallsBefore(x - 1) + RowWalls(x - 1, MazeSize)
  {
    if x % 2 == 0 {
      assert (x + 1) / 2 == x / 2 && (x - 1) / 2 == x / 2 - 1 && (x - 1 + 1) / 2 == x / 2;
    } else {
      assert (x + 1) / 2 == x / 2 + 1 && (x - 1 + 1) / 2 == x / 2 && (x - 1) / 2 == x / 2;
    }
  }

  /** Cell (x, z - 1) adds one to the row count exactly when it is a wall cell. */
  lemma RowWallsStep(x: nat, z: nat)
    requires z > 0
    ensures RowWalls(x, z) == RowWalls(x, z - 1) + (if IsWallCell(x, z - 1) then 1 else 0)
  {
  }

  /** Cell (x, z - 1) adds two blocks if it is a wall cell and none otherwise. */
  lemma MazeLengthStep(x: nat, z: nat)
    requires 0 < z <= MazeSize
    requires |MazeSoFar(x, z - 1)| == 2 * (WallsBefore(x) + RowWalls(x, z - 1))
    ensures |MazeSoFar(x, z)| == 2 * (WallsBefore(x) + RowWalls(x, z))
  {
    RowWallsStep(x, z);
    assert MazeSoFar(x, z) == MazeSoFar(x, z - 1) + MazeCell(Cell(x, z - 1));
  }

  /** The end of row x - 1 is the start of row x. */
  lemma MazeLengthRow(x: nat)
    requires x > 0
    requires |MazeSoFar(x - 1, MazeSize)| == 2 * (WallsBefore(x - 1) + RowWalls(x - 1, MazeSize))
    ensures |MazeSoFar(x, 0)| == 2 * (WallsBefore(x) + RowWalls(x, 0))
  {
    WallsBeforeStep(x);
    assert RowWalls(x, 0) == 0;
  }

  /** Two blocks per wall cell visited so far. */
  lemma {:induction false} MazeSoFarLength(x: nat, z: nat)
    requires z <= MazeSize
    ensures |MazeSoFar(x, z)| == 2 * (WallsBefore(x) + RowWalls(x, z))
    decreases x, z
  {
    if z > 0 {
      MazeSoFarLength(x, z - 1);
      MazeLengthStep(x, z);
    } else if x > 0 {
      MazeSoFarLength(x - 1, MazeSize);
      MazeLengthRow(x);
    } else {
      assert RowWalls(0, 0) == 0;
    }
  }

  /**
   * Before the gaps are removed the maze holds 192 distinct blocks: the ground
   * and the wall of each of the 96 cells of the 11 x 11 square with an even
   * coordinate, and nothing else.
   */
  lemma MazeGridShape()
    ensures |MazeGrid()| == 192
    ensures forall i :: 0 <= i < |MazeGrid()| ==> IsMazeBlock(MazeGrid()[i])
    ensures forall x, y, z :: 0 <= x < MazeSize && 0 <= z < MazeSize && IsWallCell(x, z) && (y == 0 || y == 1) ==>
      Triple(x, y, z) in MazeGrid()
    ensures Distinct(MazeGrid())
  {
    MazeGridBlocks();
    MazeGridComplete();
    MazeSoFarDistinct(MazeSize, 0);
  }

  lemma MazeGridBlocks()
    ensures |MazeGrid()| == 192
    ensures forall i :: 0 <= i < |MazeGrid()| ==> IsMazeBlock(MazeGrid()[i])
  {
    MazeSoFarLength(MazeSize, 0);
    MazeSoFarSound(MazeSize, 0);
  }

  lemma MazeGridComplete()
    ensures forall x, y, z :: 0 <= x < MazeSize && 0 <= z < MazeSize && IsWallCell(x, z) && (y == 0 || y == 1) ==>
      Triple(x, y, z) in MazeGrid()
  {
    forall x, y, z | 0 <= x < MazeSize && 0 <= z < MazeSize && IsWallCell(x, z) && (y == 0 || y == 1)
      ensures Triple(x, y, z) in MazeGrid()
    {
      MazeSoFarComplete(MazeSize, 0, Cell(x, z), y);
    }
  }

  /** In a list without repeats, removing `e` removes exactly `e` and keeps the list free of repeats. */
  lemma RemoveFirstDistinct(s: seq<Entry>, e: Entry)
    requires Distinct(s) && e in s
    ensures Distinct(RemoveFirst(s, e))
    ensures forall d :: d in RemoveFirst(s, e) <==> d in s && d != e
  {
    var i := FirstIndex(s, e);
    var r := RemoveFirst(s, e);
    assert r == s[..i] + s[i + 1..];
    forall j | 0 <= j < |r|
      ensures r[j] == s[if j < i then j else j + 1]
    {
    }
    forall d | d in s && d != e
      ensures d in r
    {
      var j :| 0 <= j < |s| && s[j] == d;
      assert r[if j < i then j else j - 1] == d;
    }
  }

  /** The six gaps are six different blocks. */
  lemma GapsDistinct()
    ensures Distinct(Gaps)
  {
  }

  /**
   * Removing the gaps one after the other from a list without repeats that
   * holds all of them: each gap is still there when its turn comes, and after
   * k of them exactly those k are gone.
   */
  lemma {:induction false} RemoveGapsShape(s: seq<Entry>, k: nat)
    requires k <= |Gaps| && Distinct(s)
    requires forall j :: 0 <= j < |Gaps| ==> Gaps[j] in s
    ensures |RemoveGaps(s, k)| == |s| - k
    ensures Distinct(RemoveGaps(s, k))
    ensures forall d :: d in RemoveGaps(s, k) <==> d in s && d !in Gaps[..k]
    ensures k < |Gaps| ==> Gaps[k] in RemoveGaps(s, k)
  {
    if k > 0 {
      RemoveGapsShape(s, k - 1);
      RemoveGapStep(s, k, RemoveGaps(s, k - 1));
    }
    if k < |Gaps| {
      GapNotEarlier(k);
    }
  }

  /** Removal of gap k - 1 from the list left by the earlier ones. */
  lemma RemoveGapStep(s: seq<Entry>, k: nat, t: seq<Entry>)
    requires 0 < k <= |Gaps| && t == RemoveGaps(s, k - 1)
    requires |t| == |s| - (k - 1) && Distinct(t) && Gaps[k - 1] in t
    requires forall d :: d in t <==> d in s && d !in Gaps[..k - 1]
    ensures RemoveGaps(s, k) == RemoveFirst(t, Gaps[k - 1])
    ensures |RemoveGaps(s, k)| == |s| - k
    ensures Distinct(RemoveGaps(s, k))
    ensures forall d :: d in RemoveGaps(s, k) <==> d in s && d !in Gaps[..k]
  {
    RemoveFirstDistinct(t, Gaps[k - 1]);
    assert Gaps[..k] == Gaps[..k - 1] + [Gaps[k - 1]];
  }

  /** No gap appears earlier in the list of gaps. */
  lemma GapNotEarlier(k: nat)
    requires k < |Gaps|
    ensures Gaps[k] !in Gaps[..k]
  {
    GapsDistinct();
  }

  /** Each of the six gaps is a wall block of the maze. */
  lemma GapsInMaze()
    ensures forall j :: 0 <= j < |Gaps| ==> Gaps[j] in MazeGrid()
  {
    MazeGridComplete();
  }

  /** All six removals, from any list without repeats that holds the gaps. */
  lemma RemoveAllGaps(s: seq<Entry>)
    requires Distinct(s)
    requires forall j :: 0 <= j < |Gaps| ==> Gaps[j] in s
    ensures forall k :: 0 <= k < |Gaps| ==> Gaps[k] in RemoveGaps(s, k)
    ensures |RemoveGaps(s, |Gaps|)| == |s| - |Gaps|
    ensures forall d :: d in RemoveGaps(s, |Gaps|) <==> d in s && d !in Gaps
    ensures Distinct(RemoveGaps(s, |Gaps|))
  {
    forall k | 0 <= k < |Gaps|
      ensures Gaps[k] in RemoveGaps(s, k)
    {
      RemoveGapsShape(s, k);
    }
    RemoveGapsShape(s, |Gaps|);
    assert Gaps[..|Gaps|] == Gaps;
  }

  /**
   * The maze: every gap is present once when the loop reaches it and is
   * removed, so the result holds the 192 - 6 = 186 wall blocks of the grid
   * other than the gaps, each once.
   */
  lemma MazeWorldShape()
    ensures forall k :: 0 <= k < |Gaps| ==> Gaps[k] in RemoveGaps(MazeGrid(), k)
    ensures |MazeWorldSpec()| == |MazeGrid()| - |Gaps| == 186
    ensures forall d :: d in MazeWorldSpec() <==> d in MazeGrid() && d !in Gaps
    ensures Distinct(MazeWorldSpec())
  {
    MazeGridBlocks();
    MazeSoFarDistinct(MazeSize, 0);
    GapsInMaze();
    RemoveAllGaps(MazeGrid());
  }

  // The three exercises left for the reader have empty bodies, so they
  // return None; handing one to the builder raises before any block is placed.

  function RainbowPath(): (p: Produced)
    ensures Generation(p) == Outcome([], Some(NotIterable))
  {
    ReturnedNone
  }

  function Mountain(): (p: Produced)
    ensures Generation(p) == Outcome([], Some(NotIterable))
  {
    ReturnedNone
  }

  function Spiral(): (p: Produced)
    ensures Generation(p) == Outcome([], Some(NotIterable))
  {
    ReturnedNone
  }
}
