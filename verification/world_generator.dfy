/**
 * The world builder: how the entries a producer returns become the block
 * registry of a `WorldGenerator`, the default random producer, and the
 * read-only summaries of the registry.
 */
module World {
  import opened Entries
  import opened Grid

  /** One placed block. Its engine cube is not part of the model. */
  datatype Block = Block(position: Pos, blockType: Val, color: Val)

  /** The type and colour a block gets when its entry names none. */
  const DefaultType: Val := Str("grass")
  const DefaultColor: Val := Paint(Green)

  /** The width and depth of the world that `get_world_info` reports. */
  const WorldSize: nat := 16

  /** How many random blocks the default producer stacks on its ground. */
  const RandomBlockCount: nat := 20

  /** Why building a world stopped with an exception. */
  datatype GenError =
    | MissingPosition   // a dictionary entry without "position" (KeyError)
    | BadPosition       // a "position" that is not three coordinates
    | NotIterable       // the producer returned None (TypeError)
    | ProducerFailed(exception: string)  // the producer itself raised this exception

  /** What the builder does with one entry. */
  datatype Step = Place(block: Block) | Skip | Fail(error: GenError)

  /** Python's `d.get(key, default)` on a dictionary entry's value. */
  function GetOr(v: Option<Val>, default: Val): Val
  {
    if v.Some? then v.value else default
  }

  /**
   * The builder's decision for one entry: a 3-tuple places a default block,
   * a dictionary places a block built from its fields (or raises when its
   * position is missing or malformed), and anything else is skipped.
   */
  function Classify(e: Entry): (s: Step)
    ensures s.Place? <==> EntryPos(e).Some?
    ensures s.Place? ==> s.block.position == EntryPos(e).value
    ensures s.Place? ==> s.block.blockType == (if TypeOf(e).Some? then TypeOf(e).value else DefaultType)
    ensures s.Place? ==> s.block.color == (if ColorOf(e).Some? then ColorOf(e).value else DefaultColor)
    ensures s.Skip? <==> !e.Dict? && EntryPos(e).None?
    ensures s.Fail? ==> e.Dict? && (s.error == MissingPosition <==> e.position.None?)
    ensures s.Fail? ==> s.error == MissingPosition || s.error == BadPosition
  {
    match e
    case Tup(xs) =>
      if |xs| == 3 then Place(Block(PosOf(xs), DefaultType, DefaultColor)) else Skip
    case Dict(position, color, blockType) =>
      if position.None? then Fail(MissingPosition)
      else if !IsTriple(position) then Fail(BadPosition)
      else Place(Block(PosOf(position.value.xs), GetOr(blockType, DefaultType), GetOr(color, DefaultColor)))
    case _ => Skip
  }

  /** The registry after a pass over some entries, and the exception that ended it, if any. */
  datatype Outcome = Outcome(blocks: seq<Block>, error: Option<GenError>)

  /**
   * The classify-and-append pass over `es`, one entry at a time from the
   * front; the first failing entry ends it with the blocks placed so far.
   */
  function Build(es: seq<Entry>): (r: Outcome)
    ensures |r.blocks| <= |es|
    ensures r.error.Some? ==> r.error.value == MissingPosition || r.error.value == BadPosition
  {
    if es == [] then Outcome([], None)
    else
      var prev := Build(es[..|es| - 1]);
      if prev.error.Some? then prev
      else match Classify(es[|es| - 1])
        case Place(b) => Outcome(prev.blocks + [b], None)
        case Skip => prev
        case Fail(err) => Outcome(prev.blocks, Some(err))
  }

  /** Reference definition: the blocks of the placing entries, in entry order. */
  function Placements(es: seq<Entry>): seq<Block>
  {
    if es == [] then []
    else (if Classify(es[0]).Place? then [Classify(es[0]).block] else []) + Placements(es[1..])
  }

  predicate FailureFree(es: seq<Entry>)
  {
    forall i :: 0 <= i < |es| ==> !Classify(es[i]).Fail?
  }

  /** A pass over `a + b` is the pass over `a` continued over `b`, unless `a` already failed. */
  lemma {:induction false} BuildAppend(a: seq<Entry>, b: seq<Entry>)
    ensures Build(a).error.Some? ==> Build(a + b) == Build(a)
    ensures Build(a).error.None? ==>
      Build(a + b) == Outcome(Build(a).blocks + Build(b).blocks, Build(b).error)
    decreases |b|
  {
    if b == [] {
      assert a + b == a;
    } else {
      var b' := b[..|b| - 1];
      assert (a + b)[..|a + b| - 1] == a + b';
      assert (a + b)[|a + b| - 1] == b[|b| - 1];
      BuildAppend(a, b');
    }
  }

  /** Without failing entries, the pass places exactly the placing entries, in order. */
  lemma {:induction false} BuildFailureFree(es: seq<Entry>)
    requires FailureFree(es)
    ensures Build(es) == Outcome(Placements(es), None)
    decreases |es|
  {
    if es != [] {
      assert es == [es[0]] + es[1..];
      assert Build([es[0]]) == Outcome(if Classify(es[0]).Place? then [Classify(es[0]).block] else [], None) by {
        assert [es[0]][..0] == [];
      }
      BuildAppend([es[0]], es[1..]);
      BuildFailureFree(es[1..]);
    }
  }

  /** The first failing entry raises, leaving the blocks placed before it in the registry. */
  lemma BuildStopsAtFirstFailure(es: seq<Entry>, k: nat)
    requires k < |es| && FailureFree(es[..k]) && Classify(es[k]).Fail?
    ensures Build(es) == Outcome(Placements(es[..k]), Some(Classify(es[k]).error))
  {
    BuildUpToFailure(es, k);
    BuildStopsAt(es, k);
  }

  lemma BuildUpToFailure(es: seq<Entry>, k: nat)
    requires k < |es| && FailureFree(es[..k]) && Classify(es[k]).Fail?
    ensures Build(es[..k + 1]) == Outcome(Placements(es[..k]), Some(Classify(es[k]).error))
  {
    assert es[..k + 1] == es[..k] + [es[k]];
    BuildFailureFree(es[..k]);
    BuildSnocFail(es[..k], es[k]);
  }

  /** One more entry of the pass: the prefix up to entry i + 1 follows from the prefix up to i. */
  lemma BuildPrefixStep(es: seq<Entry>, i: nat)
    requires i < |es| && Build(es[..i]).error.None?
    ensures Build(es[..i + 1]) == match Classify(es[i])
      case Place(b) => Outcome(Build(es[..i]).blocks + [b], None)
      case Skip => Build(es[..i])
      case Fail(err) => Outcome(Build(es[..i]).blocks, Some(err))
  {
    assert es[..i + 1][..i] == es[..i];
  }

  /** Once the prefix up to entry i + 1 has failed, the rest of the entries change nothing. */
  lemma BuildStopsAt(es: seq<Entry>, i: nat)
    requires i < |es| && Build(es[..i + 1]).error.Some?
    ensures Build(es) == Build(es[..i + 1])
  {
    var done, rest := es[..i + 1], es[i + 1..];
    SplitAt(es, i + 1);
    BuildAfterFailure(done, rest);
  }

  /** A failed pass stays failed whatever entries follow. */
  lemma BuildAfterFailure(a: seq<Entry>, b: seq<Entry>)
    requires Build(a).error.Some?
    ensures Build(a + b) == Build(a)
  {
    BuildAppend(a, b);
  }

  lemma SplitAt<T>(s: seq<T>, n: nat)
    requires n <= |s|
    ensures s[..n] + s[n..] == s
  {
  }

  lemma BuildSnocFail(init: seq<Entry>, e: Entry)
    requires Build(init).error.None? && Classify(e).Fail?
    ensures Build(init + [e]) == Outcome(Build(init).blocks, Some(Classify(e).error))
  {
    assert (init + [e])[..|init|] == init;
  }

  /** Every block in the registry was built from one of this pass's entries. */
  lemma {:induction false} BuildProvenance(es: seq<Entry>)
    ensures forall j :: 0 <= j < |Build(es).blocks| ==>
      exists i :: 0 <= i < |es| && Classify(es[i]) == Place(Build(es).blocks[j])
    decreases |es|
  {
    if es != [] {
      var init, last := es[..|es| - 1], es[|es| - 1];
      BuildProvenance(init);
      var before := Build(init).blocks;
      var after := Build(es).blocks;
      assert after == before || (Classify(last).Place? && after == before + [Classify(last).block]);
      forall j | 0 <= j < |after|
        ensures exists i :: 0 <= i < |es| && Classify(es[i]) == Place(after[j])
      {
        if j < |before| {
          assert after[j] == before[j];
          var i :| 0 <= i < |init| && Classify(init[i]) == Place(before[j]);
          assert es[i] == init[i];
        } else {
          assert Classify(es[|es| - 1]) == Place(after[j]);
        }
      }
      assert forall j :: 0 <= j < |after| ==> exists i :: 0 <= i < |es| && Classify(es[i]) == Place(after[j]);
    } else {
      assert Build(es).blocks == [];
    }
  }

  /** When every entry places a block, the registry holds one block per entry, in entry order. */
  lemma {:induction false} BuildAllPlace(es: seq<Entry>)
    requires forall i :: 0 <= i < |es| ==> Classify(es[i]).Place?
    ensures Build(es).error.None? && |Build(es).blocks| == |es|
    ensures forall i :: 0 <= i < |es| ==> Build(es).blocks[i] == Classify(es[i]).block
    decreases |es|
  {
    if es != [] {
      BuildAllPlace(es[..|es| - 1]);
    }
  }

  /** A list of 3-tuples yields one default block per tuple, at its position, in order. */
  lemma BuildTriples(es: seq<Entry>)
    requires forall i :: 0 <= i < |es| ==> es[i].Tup? && |es[i].items| == 3
    ensures Build(es).error.None? && |Build(es).blocks| == |es|
    ensures forall i :: 0 <= i < |es| ==>
      Build(es).blocks[i] == Block(PosOf(es[i].items), DefaultType, DefaultColor)
  {
    BuildAllPlace(es);
  }

  /** Three plain tuples give three grass blocks. */
  lemma ThreeTuplesScenario()
    ensures Build([Triple(0, 0, 0), Triple(1, 0, 0), Triple(2, 0, 0)]) ==
      Outcome([Block(Pos(0, 0, 0), Str("grass"), Paint(Green)),
               Block(Pos(1, 0, 0), Str("grass"), Paint(Green)),
               Block(Pos(2, 0, 0), Str("grass"), Paint(Green))], None)
  {
    BuildTriples([Triple(0, 0, 0), Triple(1, 0, 0), Triple(2, 0, 0)]);
  }

  /** A stone dictionary followed by a stray string gives one stone block. */
  lemma StoneAndGarbageScenario()
    ensures Build([Dict(Some(Coords([0, 1, 0])), None, Some(Str("stone"))), Other]) ==
      Outcome([Block(Pos(0, 1, 0), Str("stone"), Paint(Green))], None)
  {
    var es := [Dict(Some(Coords([0, 1, 0])), None, Some(Str("stone"))), Other];
    assert es[..1][..0] == [];
    assert es[..|es| - 1] == es[..1];
  }

  /** A dictionary without a position raises even after valid entries. */
  lemma MissingPositionScenario()
    ensures Build([Triple(0, 0, 0), Dict(None, None, Some(Str("stone"))), Triple(1, 0, 0)]) ==
      Outcome([Block(Pos(0, 0, 0), Str("grass"), Paint(Green))], Some(MissingPosition))
  {
    var es := [Triple(0, 0, 0), Dict(None, None, Some(Str("stone"))), Triple(1, 0, 0)];
    assert es[..1] == [Triple(0, 0, 0)];
    assert Placements(es[..1]) == [Block(Pos(0, 0, 0), Str("grass"), Paint(Green))] by {
      assert es[..1][1..] == [];
    }
    BuildStopsAtFirstFailure(es, 1);
  }

  // ---------------------------------------------------------------------
  // The default producer

  /** One triple of random draws, in the order the producer makes them. */
  datatype Draw = Draw(x: int, z: int, y: int)

  predicate DrawInRange(d: Draw, size: nat)
  {
    0 <= d.x <= size - 1 && 0 <= d.z <= size - 1 && 1 <= d.y <= 3
  }

  /** The ground entry (x, 0, z) of a cell. */
  function GroundCell(c: Cell): Entry
  {
    Triple(c.x, 0, c.z)
  }

  /** The stacked entries, one (x, y, z) tuple per draw. */
  function DrawEntries(draws: seq<Draw>): (r: seq<Entry>)
    ensures |r| == |draws|
    ensures forall i :: 0 <= i < |draws| ==> r[i] == Triple(draws[i].x, draws[i].y, draws[i].z)
  {
    if draws == [] then []
    else DrawEntries(draws[..|draws| - 1]) + [Triple(draws[|draws| - 1].x, draws[|draws| - 1].y, draws[|draws| - 1].z)]
  }

  /** What the default producer returns for a world of width `size` and the given draws. */
  function RandomWorldSpec(size: nat, draws: seq<Draw>): seq<Entry>
  {
    Sweep(size, size, 0, GroundCell) + DrawEntries(draws)
  }

  /** Whether `e` is a 3-tuple inside the `size` x `size` square, at a height from `lo` to `hi`. */
  predicate TupleWithin(e: Entry, size: nat, lo: int, hi: int)
  {
    e.Tup? && |e.items| == 3 && 0 <= e.items[0] < size && lo <= e.items[1] <= hi && 0 <= e.items[2] < size
  }

  /**
   * A layer of an `n` x `n` square at height `y`, laid out by the double loop:
   * it covers every cell of the square exactly once.
   */
  lemma SquareLayerShape(n: nat, f: Cell -> Entry, y: int)
    requires forall c :: f(c) == Triple(c.x, y, c.z)
    ensures |Sweep(n, n, 0, f)| == n * n
    ensures forall i :: 0 <= i < n * n ==> TupleWithin(Sweep(n, n, 0, f)[i], n, y, y)
    ensures forall x, z :: 0 <= x < n && 0 <= z < n ==> Triple(x, y, z) in Sweep(n, n, 0, f)
    ensures Distinct(Sweep(n, n, 0, f))
  {
    var layer := Sweep(n, n, 0, f);
    SweepLength(n, n, 0, f);
    forall i | 0 <= i < n * n
      ensures TupleWithin(layer[i], n, y, y)
    {
      var c := SweepOrigin(n, n, 0, f, i);
    }
    forall x, z | 0 <= x < n && 0 <= z < n
      ensures Triple(x, y, z) in layer
    {
      SweepVisits(n, n, 0, f, Cell(x, z));
    }
    forall c, d | f(c) == f(d)
      ensures c == d
    {
      assert f(c).items == [c.x, y, c.z] && f(d).items == [d.x, y, d.z];
    }
    SweepDistinct(n, n, 0, f);
  }

  /** The ground layer of an `n` x `n` world covers every cell of the square exactly once, at height 0. */
  lemma GroundLayerShape(n: nat)
    ensures |Sweep(n, n, 0, GroundCell)| == n * n
    ensures forall i :: 0 <= i < n * n ==> TupleWithin(Sweep(n, n, 0, GroundCell)[i], n, 0, 0)
    ensures forall x, z :: 0 <= x < n && 0 <= z < n ==> Triple(x, 0, z) in Sweep(n, n, 0, GroundCell)
    ensures Distinct(Sweep(n, n, 0, GroundCell))
  {
    SquareLayerShape(n, GroundCell, 0);
  }

  /**
   * The default world of width `n`: a ground layer covering every cell of the
   * n x n square once, at height 0, followed by one tuple per draw, each inside
   * the square at a height from 1 to 3.
   */
  lemma RandomWorldShape(n: nat, draws: seq<Draw>)
    requires forall i :: 0 <= i < |draws| ==> DrawInRange(draws[i], n)
    ensures |RandomWorldSpec(n, draws)| == n * n + |draws|
    ensures forall i :: 0 <= i < n * n ==> TupleWithin(RandomWorldSpec(n, draws)[i], n, 0, 0)
    ensures forall x, z :: 0 <= x < n && 0 <= z < n ==> Triple(x, 0, z) in RandomWorldSpec(n, draws)[..n * n]
    ensures Distinct(RandomWorldSpec(n, draws)[..n * n])
    ensures forall i :: n * n <= i < n * n + |draws| ==> TupleWithin(RandomWorldSpec(n, draws)[i], n, 1, 3)
  {
    GroundLayerShape(n);
    var es := RandomWorldSpec(n, draws);
    assert es[..n * n] == Sweep(n, n, 0, GroundCell);
    forall i | n * n <= i < n * n + |draws|
      ensures TupleWithin(es[i], n, 1, 3)
    {
      assert es[i] == DrawEntries(draws)[i - n * n];
    }
  }

  /** The default world builds into one default grass block per entry: 276 of them, 256 on the ground. */
  lemma DefaultWorldBlocks(draws: seq<Draw>)
    requires |draws| == RandomBlockCount
    ensures Build(RandomWorldSpec(WorldSize, draws)).error.None?
    ensures |Build(RandomWorldSpec(WorldSize, draws)).blocks| == WorldSize * WorldSize + RandomBlockCount == 276
    ensures forall i :: 0 <= i < |Build(RandomWorldSpec(WorldSize, draws)).blocks| ==>
      Build(RandomWorldSpec(WorldSize, draws)).blocks[i].blockType == DefaultType &&
      Build(RandomWorldSpec(WorldSize, draws)).blocks[i].color == DefaultColor
  {
    var es := RandomWorldSpec(WorldSize, draws);
    SweepLength(WorldSize, WorldSize, 0, GroundCell);
    forall i | 0 <= i < |es|
      ensures es[i].Tup? && |es[i].items| == 3
    {
      if i < WorldSize * WorldSize {
        var c := SweepOrigin(WorldSize, WorldSize, 0, GroundCell, i);
      } else {
        assert es[i] == DrawEntries(draws)[i - WorldSize * WorldSize];
      }
    }
    BuildTriples(es);
  }

  // ---------------------------------------------------------------------
  // The registry

  /** How a producer call ends: it returns a list of entries, returns None (the unfinished stubs), or raises. */
  datatype Produced = Returned(es: seq<Entry>) | ReturnedNone | Threw(exception: string)

  /** The registry a generation leaves, and its exception, for what the producer returned. */
  function Generation(p: Produced): (r: Outcome)
    ensures p.ReturnedNone? ==> r == Outcome([], Some(NotIterable))
    ensures p.Threw? ==> r == Outcome([], Some(ProducerFailed(p.exception)))
    ensures p.Returned? ==> |r.blocks| <= |p.es| && r == Build(p.es)
  {
    match p
    case Returned(es) => Build(es)
    case ReturnedNone => Outcome([], Some(NotIterable))
    case Threw(exception) => Outcome([], Some(ProducerFailed(exception)))
  }

  /** How `generate_world` ends: with the new registry, or with an exception. */
  datatype GenResult = Generated(blocks: seq<Block>) | Raised(error: GenError)

  function ResultOf(out: Outcome): GenResult
  {
    if out.error.None? then Generated(out.blocks) else Raised(out.error.value)
  }

  datatype WorldInfo = WorldInfo(totalBlocks: nat, worldSize: nat, blockTypes: set<Val>)

  class WorldGenerator {
    /** The blocks of the current world, in creation order. */
    var blocks: seq<Block>
    const worldSize: nat

    constructor ()
      ensures blocks == [] && worldSize == WorldSize
    {
      blocks := [];
      worldSize := WorldSize;
    }

    /** Empties the registry; the engine cubes it removes are not modelled. */
    method ClearWorld()
      modifies this
      ensures blocks == []
      ensures GetBlockCount() == 0 && GetWorldInfo() == WorldInfo(0, worldSize, {})
    {
      blocks := [];
    }

    /**
     * Replaces the world with the blocks built from what the producer returns;
     * with no producer, the default one runs on the given draws.
     */
    method GenerateWorld(producer: Option<Produced>, draws: seq<Draw>) returns (r: GenResult)
      requires producer.None? ==> |draws| == RandomBlockCount
      modifies this
      ensures var out := Generation(if producer.Some? then producer.value
                                    else Returned(RandomWorldSpec(worldSize, draws)));
              blocks == out.blocks && r == ResultOf(out)
    {
      ClearWorld();
      var produced: Produced;
      if producer.None? {
        var es := SimpleRandomWorld(draws);
        produced := Returned(es);
      } else {
        produced := producer.value;
      }
      if produced.Threw? {
        return Raised(ProducerFailed(produced.exception));
      }
      if produced.ReturnedNone? {
        return Raised(NotIterable);
      }
      var es := produced.es;
      var i := 0;
      while i < |es|
        invariant 0 <= i <= |es|
        invariant Build(es[..i]) == Outcome(blocks, None)
      {
        BuildPrefixStep(es, i);
        var e := es[i];
        if e.Tup? && |e.items| == 3 {
          blocks := blocks + [Block(PosOf(e.items), DefaultType, DefaultColor)];
        } else if e.Dict? {
          if e.position.None? {
            BuildStopsAt(es, i);
            return Raised(MissingPosition);
          }
          var p := e.position.value;
          if !(p.Coords? && |p.xs| == 3) {
            BuildStopsAt(es, i);
            return Raised(BadPosition);
          }
          var blockColor := GetOr(e.color, DefaultColor);
          var blockType := GetOr(e.blockType, DefaultType);
          blocks := blocks + [Block(PosOf(p.xs), blockType, blockColor)];
        }
        i := i + 1;
      }
      assert es[..i] == es;
      r := Generated(blocks);
    }

    /** The default producer: the ground layer, then one stacked block per draw. */
    method SimpleRandomWorld(draws: seq<Draw>) returns (es: seq<Entry>)
      requires |draws| == RandomBlockCount
      ensures es == RandomWorldSpec(worldSize, draws)
    {
      es := [];
      for x := 0 to worldSize
        invariant es == Sweep(worldSize, x, 0, GroundCell)
      {
        for z := 0 to worldSize
          invariant es == Sweep(worldSize, x, z, GroundCell)
        {
          es := es + [Triple(x, 0, z)];
        }
      }
      var ground := es;
      for i := 0 to RandomBlockCount
        invariant es == ground + DrawEntries(draws[..i])
      {
        assert draws[..i + 1][..i] == draws[..i];
        var d := draws[i];
        es := es + [Triple(d.x, d.y, d.z)];
      }
      assert draws[..RandomBlockCount] == draws;
    }

    /** How many blocks the registry holds; none exactly when it is empty. */
    function GetBlockCount(): (n: nat)
      reads this
      ensures n == |blocks|
      ensures n == 0 <==> blocks == []
    {
      |blocks|
    }

    /** A side-effect-free summary: the block count, the world size and the block types present. */
    function GetWorldInfo(): (info: WorldInfo)
      reads this
      ensures info.totalBlocks == GetBlockCount() == |blocks|
      ensures info.worldSize == worldSize
      ensures forall t :: t in info.blockTypes <==> exists i :: 0 <= i < |blocks| && blocks[i].blockType == t
    {
      WorldInfo(|blocks|, worldSize, set b | b in blocks :: b.blockType)
    }
  }
}
