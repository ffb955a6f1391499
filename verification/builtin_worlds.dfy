/**
 * The three example producers that ship with the world builder:
 * `flat_world`, `pyramid_world` and `checkerboard_world`. Each is an append
 * loop over a local list; each is specified here by the list it returns.
 */
module BuiltinWorlds {
  import opened Entries
  import opened Grid
  import opened World

  // ---------------------------------------------------------------------
  // flat_world

  const FlatSize: nat := 10

  /** The 10 x 10 ground layer, row by row. */
  function FlatWorldSpec(): seq<Entry>
  {
    Sweep(FlatSize, FlatSize, 0, GroundCell)
  }

  method FlatWorld() returns (blocks: seq<Entry>)
    ensures blocks == FlatWorldSpec()
  {
    blocks := [];
    for x := 0 to FlatSize
      invariant blocks == Sweep(FlatSize, x, 0, GroundCell)
    {
      for z := 0 to FlatSize
        invariant blocks == Sweep(FlatSize, x, z, GroundCell)
      {
        blocks := blocks + [Triple(x, 0, z)];
      }
    }
  }

  /** 100 distinct tuples at height 0 covering the square [0, 10) x [0, 10). */
  lemma FlatWorldShape()
    ensures |FlatWorldSpec()| == FlatSize * FlatSize == 100
    ensures forall i :: 0 <= i < |FlatWorldSpec()| ==> TupleWithin(FlatWorldSpec()[i], FlatSize, 0, 0)
    ensures forall x, z :: 0 <= x < FlatSize && 0 <= z < FlatSize ==> Triple(x, 0, z) in FlatWorldSpec()
    ensures Distinct(FlatWorldSpec())
  {
    GroundLayerShape(FlatSize);
  }

  // ---------------------------------------------------------------------
  // pyramid_world

  const PyramidHeight: nat := 5

  /** The colour list indexed by the layer. */
  function LayerColor(y: nat): Color
    requires y < PyramidHeight
  {
    [Red, Blue, Green, Yellow, Orange][y]
  }

  /** The f-string `pyramid_layer_{y}`. */
  function LayerName(y: nat): string
  {
    "pyramid_layer_" + NatToString(y)
  }

  /** The side of layer y: each layer is one block narrower than the one below. */
  function LayerWidth(y: nat): nat
    requires y <= PyramidHeight
  {
    PyramidHeight - y
  }

  /** The block appended for cell (x, z) of layer y: shifted by y along x and z. */
  function PyramidEntry(y: nat, x: int, z: int): Entry
    requires y < PyramidHeight
  {
    Detailed(x + y, y, z + y, LayerColor(y), LayerName(y))
  }

  /** The loop counters (y, x, z) the three loops can reach, and (5, 0, 0) once they are done. */
  predicate PyramidStage(y: nat, x: nat, z: nat)
  {
    || (y < PyramidHeight && x < LayerWidth(y) && z <= LayerWidth(y))
    || (y < PyramidHeight && x == LayerWidth(y) && z == 0)
    || (y == PyramidHeight && x == 0 && z == 0)
  }

  /** The list `blocks` holds when iteration (y, x, z) of the three loops is about to run. */
  function PyramidSoFar(y: nat, x: nat, z: nat): seq<Entry>
    requires y <= PyramidHeight && (y < PyramidHeight || z == 0)
    decreases y, x, z
  {
    if z > 0 then PyramidSoFar(y, x, z - 1) + [PyramidEntry(y, x, z - 1)]
    else if x > 0 then PyramidSoFar(y, x - 1, LayerWidth(y))
    else if y > 0 then PyramidSoFar(y - 1, LayerWidth(y - 1), 0)
    else []
  }

  function PyramidWorldSpec(): seq<Entry>
  {
    PyramidSoFar(PyramidHeight, 0, 0)
  }

  method PyramidWorld() returns (blocks: seq<Entry>)
    ensures blocks == PyramidWorldSpec()
  {
    blocks := [];
    for y := 0 to PyramidHeight
      invariant blocks == PyramidSoFar(y, 0, 0)
    {
      var size := PyramidHeight - y;
      for x := 0 to size
        invariant blocks == PyramidSoFar(y, x, 0)
      {
        for z := 0 to size
          invariant blocks == PyramidSoFar(y, x, z)
        {
          var block := Detailed(x + y, y, z + y, LayerColor(y), LayerName(y));
          PyramidAppend(y, x, z, blocks, block);
          blocks := blocks + [block];
        }
        PyramidNextRow(y, x, blocks);
      }
      PyramidNextLayer(y, blocks);
    }
  }

  /** One pass of the innermost loop appends the block of cell (x, z) of layer y. */
  lemma PyramidAppend(y: nat, x: nat, z: nat, blocks: seq<Entry>, block: Entry)
    requires y < PyramidHeight && x < LayerWidth(y) && z < LayerWidth(y)
    requires blocks == PyramidSoFar(y, x, z) && block == Detailed(x + y, y, z + y, LayerColor(y), LayerName(y))
    ensures blocks + [block] == PyramidSoFar(y, x, z + 1)
  {
  }

  /** The end of row x is the start of row x + 1. */
  lemma PyramidNextRow(y: nat, x: nat, blocks: seq<Entry>)
    requires y < PyramidHeight && x < LayerWidth(y) && blocks == PyramidSoFar(y, x, LayerWidth(y))
    ensures blocks == PyramidSoFar(y, x + 1, 0)
  {
  }

  /** The end of layer y is the start of layer y + 1. */
  lemma PyramidNextLayer(y: nat, blocks: seq<Entry>)
    requires y < PyramidHeight && blocks == PyramidSoFar(y, LayerWidth(y), 0)
    ensures blocks == PyramidSoFar(y + 1, 0, 0)
  {
  }

  /** How many blocks pyramid layer `h` holds: (5 - h)^2 on heights 0 to 4, none elsewhere. */
  function PyramidLayerSize(h: int): nat
  {
    if 0 <= h < PyramidHeight then LayerWidth(h) * LayerWidth(h) else 0
  }

  /** How many blocks lie at height h when iteration (y, x, z) is about to run. */
  function PyramidCountSoFar(y: nat, x: nat, z: nat, h: int): nat
    requires PyramidStage(y, x, z)
  {
    if h < y then PyramidLayerSize(h)
    else if h == y && y < PyramidHeight then x * LayerWidth(y) + z
    else 0
  }

  /** A pyramid block lies at height y: it is counted at h exactly when h == y. */
  lemma PyramidEntryHeight(y: nat, a: int, b: int, h: int)
    requires y < PyramidHeight
    ensures AtHeight(PyramidEntry(y, a, b), h) <==> h == y
  {
    assert EntryPos(PyramidEntry(y, a, b)) == Some(Pos(a + y, y, b + y));
  }

  /** The innermost loop's append adds one block at height y and none elsewhere. */
  lemma PyramidCountStep(y: nat, x: nat, z: nat, h: int)
    requires PyramidStage(y, x, z) && z > 0
    requires CountAtHeight(PyramidSoFar(y, x, z - 1), h) == PyramidCountSoFar(y, x, z - 1, h)
    ensures CountAtHeight(PyramidSoFar(y, x, z), h) == PyramidCountSoFar(y, x, z, h)
  {
    var before := PyramidSoFar(y, x, z - 1);
    var e := PyramidEntry(y, x, z - 1);
    assert PyramidSoFar(y, x, z) == before + [e];
    CountAtHeightSnoc(before, e, h);
    PyramidEntryHeight(y, x, z - 1, h);
    assert PyramidCountSoFar(y, x, z, h) == PyramidCountSoFar(y, x, z - 1, h) + (if h == y then 1 else 0);
  }

  /** A finished row of layer y adds its width to the count at height y. */
  lemma PyramidCountRow(y: nat, x: nat, h: int)
    requires PyramidStage(y, x, 0) && x > 0
    requires CountAtHeight(PyramidSoFar(y, x - 1, LayerWidth(y)), h) == PyramidCountSoFar(y, x - 1, LayerWidth(y), h)
    ensures CountAtHeight(PyramidSoFar(y, x, 0), h) == PyramidCountSoFar(y, x, 0, h)
  {
    assert PyramidSoFar(y, x, 0) == PyramidSoFar(y, x - 1, LayerWidth(y));
    assert (x - 1) * LayerWidth(y) + LayerWidth(y) == x * LayerWidth(y);
  }

  /** A finished layer y - 1 holds its full square. */
  lemma PyramidCountLayer(y: nat, h: int)
    requires PyramidStage(y, 0, 0) && y > 0
    requires CountAtHeight(PyramidSoFar(y - 1, LayerWidth(y - 1), 0), h) == PyramidCountSoFar(y - 1, LayerWidth(y - 1), 0, h)
    ensures CountAtHeight(PyramidSoFar(y, 0, 0), h) == PyramidCountSoFar(y, 0, 0, h)
  {
    assert PyramidSoFar(y, 0, 0) == PyramidSoFar(y - 1, LayerWidth(y - 1), 0);
  }

  /** Along row x of layer y the count follows the innermost loop. */
  lemma {:induction false} PyramidRowCounts(y: nat, x: nat, z: nat, h: int)
    requires y < PyramidHeight && x < LayerWidth(y) && z <= LayerWidth(y)
    requires CountAtHeight(PyramidSoFar(y, x, 0), h) == PyramidCountSoFar(y, x, 0, h)
    ensures CountAtHeight(PyramidSoFar(y, x, z), h) == PyramidCountSoFar(y, x, z, h)
    decreases z
  {
    if z > 0 {
      PyramidRowCounts(y, x, z - 1, h);
      PyramidCountStep(y, x, z, h);
    }
  }

  /** Along layer y the count follows the middle loop. */
  lemma {:induction false} PyramidLayerCounts(y: nat, x: nat, h: int)
    requires y < PyramidHeight && x <= LayerWidth(y)
    requires CountAtHeight(PyramidSoFar(y, 0, 0), h) == PyramidCountSoFar(y, 0, 0, h)
    ensures CountAtHeight(PyramidSoFar(y, x, 0), h) == PyramidCountSoFar(y, x, 0, h)
    decreases x
  {
    if x > 0 {
      PyramidLayerCounts(y, x - 1, h);
      PyramidRowCounts(y, x - 1, LayerWidth(y), h);
      PyramidCountRow(y, x, h);
    }
  }

  /** The loops fill layer after layer: once layer y is about to start, height h holds its full layer if it lies below y. */
  lemma {:induction false} PyramidSoFarCounts(y: nat, h: int)
    requires y <= PyramidHeight
    ensures CountAtHeight(PyramidSoFar(y, 0, 0), h) == PyramidCountSoFar(y, 0, 0, h)
    decreases y
  {
    if y > 0 {
      PyramidSoFarCounts(y - 1, h);
      PyramidLayerCounts(y - 1, LayerWidth(y - 1), h);
      PyramidCountLayer(y, h);
    }
  }

  /** How many blocks the layers below y hold together. */
  function PyramidBelow(y: nat): nat
  {
    if y == 0 then 0 else PyramidBelow(y - 1) + PyramidLayerSize(y - 1)
  }

  lemma {:induction false} PyramidSoFarLength(y: nat, x: nat, z: nat)
    requires PyramidStage(y, x, z)
    ensures |PyramidSoFar(y, x, z)| == PyramidBelow(y) + (if y < PyramidHeight then x * LayerWidth(y) + z else 0)
    decreases y, x, z
  {
    if z > 0 {
      PyramidSoFarLength(y, x, z - 1);
    } else if x > 0 {
      PyramidSoFarLength(y, x - 1, LayerWidth(y));
      assert (x - 1) * LayerWidth(y) + LayerWidth(y) == x * LayerWidth(y);
    } else if y > 0 {
      PyramidSoFarLength(y - 1, LayerWidth(y - 1), 0);
    }
  }

  lemma PyramidWorldLength()
    ensures |PyramidWorldSpec()| == 55
  {
    PyramidSoFarLength(PyramidHeight, 0, 0);
    assert PyramidBelow(PyramidHeight) == 55;
  }

  /** Whether `e` is a block of pyramid layer `y`: its position, type and colour. */
  predicate InPyramidLayer(e: Entry, y: nat)
    requires y < PyramidHeight
  {
    && EntryPos(e).Some?
    && EntryPos(e).value.y == y
    && y <= EntryPos(e).value.x < PyramidHeight
    && y <= EntryPos(e).value.z < PyramidHeight
    && TypeOf(e) == Some(Str(LayerName(y)))
    && ColorOf(e) == Some(Paint(LayerColor(y)))
  }

  /** Whether `e` is a block of some pyramid layer below `n`. */
  predicate InPyramidBelow(e: Entry, n: nat)
  {
    && EntryPos(e).Some?
    && 0 <= EntryPos(e).value.y < n
    && EntryPos(e).value.y < PyramidHeight
    && InPyramidLayer(e, EntryPos(e).value.y)
  }

  /** Every block appended so far belongs to a layer already visited, with that layer's type and colour. */
  lemma {:induction false} PyramidSoFarLayers(y: nat, x: nat, z: nat)
    requires PyramidStage(y, x, z)
    ensures forall i :: 0 <= i < |PyramidSoFar(y, x, z)| ==> InPyramidBelow(PyramidSoFar(y, x, z)[i], y + 1)
    decreases y, x, z
  {
    if z > 0 {
      PyramidSoFarLayers(y, x, z - 1);
      assert InPyramidLayer(PyramidEntry(y, x, z - 1), y);
    } else if x > 0 {
      PyramidSoFarLayers(y, x - 1, LayerWidth(y));
    } else if y > 0 {
      PyramidSoFarLayers(y - 1, LayerWidth(y - 1), 0);
    }
  }

  /** Every cell of every layer visited so far has been appended. */
  lemma {:induction false} PyramidSoFarComplete(y: nat, x: nat, z: nat, l: nat, a: nat, b: nat)
    requires PyramidStage(y, x, z)
    requires l < PyramidHeight && a < LayerWidth(l) && b < LayerWidth(l)
    requires l < y || (l == y && (a < x || (a == x && b < z)))
    ensures PyramidEntry(l, a, b) in PyramidSoFar(y, x, z)
    decreases y, x, z
  {
    if z > 0 {
      if !(l == y && a == x && b == z - 1) {
        PyramidSoFarComplete(y, x, z - 1, l, a, b);
      }
    } else if x > 0 {
      PyramidSoFarComplete(y, x - 1, LayerWidth(y), l, a, b);
    } else if y > 0 {
      PyramidSoFarComplete(y - 1, LayerWidth(y - 1), 0, l, a, b);
    }
  }

  /** Heights 0 to 4 hold 25, 16, 9, 4 and 1 blocks of the pyramid, and no other height holds any. */
  lemma PyramidWorldCounts()
    ensures forall h :: CountAtHeight(PyramidWorldSpec(), h) == PyramidLayerSize(h)
  {
    forall h ensures CountAtHeight(PyramidWorldSpec(), h) == PyramidLayerSize(h) {
      PyramidSoFarCounts(PyramidHeight, h);
    }
  }

  /** Every cell of every layer of the pyramid is there. */
  lemma PyramidWorldComplete()
    ensures forall l: nat, a: nat, b: nat :: l < PyramidHeight && a < LayerWidth(l) && b < LayerWidth(l) ==>
      PyramidEntry(l, a, b) in PyramidWorldSpec()
  {
    forall l: nat, a: nat, b: nat | l < PyramidHeight && a < LayerWidth(l) && b < LayerWidth(l)
      ensures PyramidEntry(l, a, b) in PyramidWorldSpec()
    {
      PyramidSoFarComplete(PyramidHeight, 0, 0, l, a, b);
    }
  }

  /** Whether `e` lies at a cell the loops visit before iteration (y, x, z): an earlier layer, row or column. */
  predicate PyramidBefore(e: Entry, y: nat, x: nat, z: nat)
  {
    && EntryPos(e).Some?
    && var p := EntryPos(e).value;
       p.y < y || (p.y == y && (p.x - y < x || (p.x - y == x && p.z - y < z)))
  }

  /** Every block appended so far lies at a cell visited before the current iteration. */
  lemma {:induction false} PyramidSoFarBefore(y: nat, x: nat, z: nat)
    requires PyramidStage(y, x, z)
    ensures forall i :: 0 <= i < |PyramidSoFar(y, x, z)| ==> PyramidBefore(PyramidSoFar(y, x, z)[i], y, x, z)
    decreases y, x, z
  {
    if z > 0 {
      var before := PyramidSoFar(y, x, z - 1);
      var e := PyramidEntry(y, x, z - 1);
      PyramidSoFarBefore(y, x, z - 1);
      assert EntryPos(e) == Some(Pos(x + y, y, z - 1 + y));
      assert PyramidSoFar(y, x, z) == before + [e];
      forall i | 0 <= i < |before| ensures PyramidBefore(before[i], y, x, z) {
        assert PyramidBefore(before[i], y, x, z - 1);
      }
    } else if x > 0 {
      var before := PyramidSoFar(y, x - 1, LayerWidth(y));
      PyramidSoFarBefore(y, x - 1, LayerWidth(y));
      assert PyramidSoFar(y, x, z) == before;
      forall i | 0 <= i < |before| ensures PyramidBefore(before[i], y, x, z) {
        assert PyramidBefore(before[i], y, x - 1, LayerWidth(y));
      }
    } else if y > 0 {
      var before := PyramidSoFar(y - 1, LayerWidth(y - 1), 0);
      PyramidSoFarBefore(y - 1, LayerWidth(y - 1), 0);
      assert PyramidSoFar(y, x, z) == before;
      forall i | 0 <= i < |before| ensures PyramidBefore(before[i], y, x, z) {
        assert PyramidBefore(before[i], y - 1, LayerWidth(y - 1), 0);
      }
    }
  }

  /** No block is appended twice: each new block lies at a cell not visited before. */
  lemma {:induction false} PyramidSoFarDistinct(y: nat, x: nat, z: nat)
    requires PyramidStage(y, x, z)
    ensures Distinct(PyramidSoFar(y, x, z))
    decreases y, x, z
  {
    if z > 0 {
      PyramidSoFarDistinct(y, x, z - 1);
      PyramidAppendFresh(y, x, z - 1);
      DistinctSnoc(PyramidSoFar(y, x, z - 1), PyramidEntry(y, x, z - 1));
    } else if x > 0 {
      PyramidSoFarDistinct(y, x - 1, LayerWidth(y));
    } else if y > 0 {
      PyramidSoFarDistinct(y - 1, LayerWidth(y - 1), 0);
    }
  }

  /** The block the innermost loop appends is not in the list yet. */
  lemma PyramidAppendFresh(y: nat, x: nat, z: nat)
    requires y < PyramidHeight && x < LayerWidth(y) && z < LayerWidth(y)
    ensures PyramidEntry(y, x, z) !in PyramidSoFar(y, x, z)
  {
    PyramidSoFarBefore(y, x, z);
    assert EntryPos(PyramidEntry(y, x, z)) == Some(Pos(x + y, y, z + y));
    assert !PyramidBefore(PyramidEntry(y, x, z), y, x, z);
  }

  /** The pyramid holds no block twice. */
  lemma PyramidWorldDistinct()
    ensures Distinct(PyramidWorldSpec())
  {
    PyramidSoFarDistinct(PyramidHeight, 0, 0);
  }

  /**
   * The pyramid: 25, 16, 9, 4 and 1 blocks on heights 0 to 4 and none elsewhere,
   * 55 in all; each is a block of the layer it lies on, and every cell of every
   * layer is there.
   */
  lemma PyramidWorldShape()
    ensures forall h :: CountAtHeight(PyramidWorldSpec(), h) == PyramidLayerSize(h)
    ensures |PyramidWorldSpec()| == 55
    ensures forall i :: 0 <= i < |PyramidWorldSpec()| ==> InPyramidBelow(PyramidWorldSpec()[i], PyramidHeight)
    ensures forall l: nat, a: nat, b: nat :: l < PyramidHeight && a < LayerWidth(l) && b < LayerWidth(l) ==>
      PyramidEntry(l, a, b) in PyramidWorldSpec()
  {
    PyramidWorldCounts();
    PyramidWorldLength();
    PyramidSoFarLayers(PyramidHeight, 0, 0);
    PyramidWorldComplete();
  }

  // ---------------------------------------------------------------------
  // checkerboard_world

  const BoardSize: nat := 8

  function CheckerColor(c: Cell): Color
  {
    if (c.x + c.z) % 2 == 0 then White else Black
  }

  function CheckerEntry(c: Cell): Entry
  {
    Detailed(c.x, 0, c.z, CheckerColor(c), "checkerboard")
  }

  function CheckerboardWorldSpec(): seq<Entry>
  {
    Sweep(BoardSize, BoardSize, 0, CheckerEntry)
  }

  method CheckerboardWorld() returns (blocks: seq<Entry>)
    ensures blocks == CheckerboardWorldSpec()
  {
    blocks := [];
    for x := 0 to BoardSize
      invariant blocks == Sweep(BoardSize, x, 0, CheckerEntry)
    {
      for z := 0 to BoardSize
        invariant blocks == Sweep(BoardSize, x, z, CheckerEntry)
      {
        CheckerAppend(x, z);
        var blockColor: Color;
        if (x + z) % 2 == 0 {
          blockColor := White;
        } else {
          blockColor := Black;
        }
        blocks := blocks + [Detailed(x, 0, z, blockColor, "checkerboard")];
      }
    }
  }

  /** One pass of the inner loop appends the square of cell (x, z), white on even x + z. */
  lemma CheckerAppend(x: nat, z: nat)
    requires z < BoardSize
    ensures Sweep(BoardSize, x, z + 1, CheckerEntry) ==
      Sweep(BoardSize, x, z, CheckerEntry) + [Detailed(x, 0, z, if (x + z) % 2 == 0 then White else Black, "checkerboard")]
  {
  }

  /** Whether `e` is the square of a board cell: at height 0 inside [0, 8) x [0, 8), white exactly on even x + z. */
  predicate IsBoardSquare(e: Entry)
  {
    && EntryPos(e).Some?
    && EntryPos(e).value.y == 0
    && 0 <= EntryPos(e).value.x < BoardSize
    && 0 <= EntryPos(e).value.z < BoardSize
    && TypeOf(e) == Some(Str("checkerboard"))
    && ColorOf(e) == Some(Paint(if (EntryPos(e).value.x + EntryPos(e).value.z) % 2 == 0 then White else Black))
  }

  /** Side-by-side squares differ in colour, along either axis. */
  lemma CheckerColorsAlternate(x: int, z: int)
    ensures CheckerColor(Cell(x, z)) != CheckerColor(Cell(x, z + 1))
    ensures CheckerColor(Cell(x, z)) != CheckerColor(Cell(x + 1, z))
  {
  }

  /** 64 distinct squares, each one a board square, and every cell of the board has its square. */
  lemma CheckerboardShape()
    ensures |CheckerboardWorldSpec()| == BoardSize * BoardSize == 64
    ensures forall i :: 0 <= i < |CheckerboardWorldSpec()| ==> IsBoardSquare(CheckerboardWorldSpec()[i])
    ensures forall x, z :: 0 <= x < BoardSize && 0 <= z < BoardSize ==>
      CheckerEntry(Cell(x, z)) in CheckerboardWorldSpec()
    ensures Distinct(CheckerboardWorldSpec())
  {
    CheckerboardSquares();
    CheckerboardComplete();
    CheckerboardDistinct();
  }

  lemma CheckerboardSquares()
    ensures |CheckerboardWorldSpec()| == BoardSize * BoardSize
    ensures forall i :: 0 <= i < |CheckerboardWorldSpec()| ==> IsBoardSquare(CheckerboardWorldSpec()[i])
  {
    var es := CheckerboardWorldSpec();
    SweepLength(BoardSize, BoardSize, 0, CheckerEntry);
    forall i | 0 <= i < |es|
      ensures IsBoardSquare(es[i])
    {
      var c := SweepOrigin(BoardSize, BoardSize, 0, CheckerEntry, i);
    }
  }

  lemma CheckerboardComplete()
    ensures forall x, z :: 0 <= x < BoardSize && 0 <= z < BoardSize ==>
      CheckerEntry(Cell(x, z)) in CheckerboardWorldSpec()
  {
    forall x, z | 0 <= x < BoardSize && 0 <= z < BoardSize
      ensures CheckerEntry(Cell(x, z)) in CheckerboardWorldSpec()
    {
      SweepVisits(BoardSize, BoardSize, 0, CheckerEntry, Cell(x, z));
    }
  }

  /** Two cells never share a square: the square's position names its cell. */
  lemma CheckerboardDistinct()
    ensures Distinct(CheckerboardWorldSpec())
  {
    forall c ensures CheckerEntry(c).position.value.xs == [c.x, 0, c.z] {
    }
    SweepDistinct(BoardSize, BoardSize, 0, CheckerEntry);
  }

  // ---------------------------------------------------------------------
  // Building the shipped worlds

  /** The flat world builds without an exception into 100 default grass blocks on height 0. */
  lemma FlatWorldBuilds()
    ensures Build(FlatWorldSpec()).error.None? && |Build(FlatWorldSpec()).blocks| == 100
    ensures forall i :: 0 <= i < |Build(FlatWorldSpec()).blocks| ==>
      var b := Build(FlatWorldSpec()).blocks[i];
      b.position.y == 0 && b.blockType == DefaultType && b.color == DefaultColor
  {
    var es := FlatWorldSpec();
    SweepLength(FlatSize, FlatSize, 0, GroundCell);
    forall i | 0 <= i < |es|
      ensures es[i].Tup? && |es[i].items| == 3 && es[i].items[1] == 0
    {
      var c := SweepOrigin(FlatSize, FlatSize, 0, GroundCell, i);
    }
    FlatBlocks(es);
  }

  /** Tuples at height 0 build into default blocks at height 0. */
  lemma FlatBlocks(es: seq<Entry>)
    requires forall i :: 0 <= i < |es| ==> es[i].Tup? && |es[i].items| == 3 && es[i].items[1] == 0
    ensures Build(es).error.None? && |Build(es).blocks| == |es|
    ensures forall i :: 0 <= i < |Build(es).blocks| ==>
      var b := Build(es).blocks[i];
      b.position.y == 0 && b.blockType == DefaultType && b.color == DefaultColor
  {
    BuildTriples(es);
  }

  /** The pyramid builds without an exception into 55 blocks, each with its layer's type and colour. */
  lemma PyramidWorldBuilds()
    ensures Build(PyramidWorldSpec()).error.None? && |Build(PyramidWorldSpec()).blocks| == 55
    ensures forall i :: 0 <= i < |Build(PyramidWorldSpec()).blocks| ==>
      var b := Build(PyramidWorldSpec()).blocks[i];
      && 0 <= b.position.y < PyramidHeight
      && b.blockType == Str(LayerName(b.position.y))
      && b.color == Paint(LayerColor(b.position.y))
  {
    PyramidWorldShape();
    BuildAllPlace(PyramidWorldSpec());
  }

  /** The checkerboard builds without an exception into 64 blocks on height 0, white exactly on the even squares. */
  lemma CheckerboardWorldBuilds()
    ensures Build(CheckerboardWorldSpec()).error.None? && |Build(CheckerboardWorldSpec()).blocks| == 64
    ensures forall i :: 0 <= i < |Build(CheckerboardWorldSpec()).blocks| ==>
      var b := Build(CheckerboardWorldSpec()).blocks[i];
      && b.position.y == 0 && b.blockType == Str("checkerboard") && (b.color == Paint(White) || b.color == Paint(Black))
      && (b.color == Paint(White) <==> (b.position.x + b.position.z) % 2 == 0)
  {
    CheckerboardSquares();
    BuildAllPlace(CheckerboardWorldSpec());
  }
}
