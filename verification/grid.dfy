/**
 * The double loop `for x in range(n): for z in range(m): out.append(f(x, z))`
 * that the producers use to lay out rectangles of blocks, described by the
 * list it holds at each iteration, and what that list contains once the
 * loop is done.
 */
module Grid {

  datatype Cell = Cell(x: int, z: int)

  /**
   * The list the double loop holds when iteration (x, z) is about to run:
   * rows 0 .. x - 1 in full, then cells 0 .. z - 1 of row x.
   */
  function Sweep<T>(m: nat, x: nat, z: nat, f: Cell -> T): seq<T>
    requires z <= m
    decreases x, z
  {
    if z > 0 then Sweep(m, x, z - 1, f) + [f(Cell(x, z - 1))]
    else if x > 0 then Sweep(m, x - 1, m, f)
    else []
  }

  /** Whether cell `c` has been visited when iteration (x, z) is about to run. */
  predicate Visited(c: Cell, m: nat, x: nat, z: nat)
  {
    0 <= c.z < m && 0 <= c.x && (c.x < x || (c.x == x && c.z < z))
  }

  /** One pass of the inner loop, behind any list `pre` built before the double loop. */
  lemma SweepStep<T>(pre: seq<T>, m: nat, x: nat, z: nat, f: Cell -> T)
    requires z < m
    ensures pre + Sweep(m, x, z + 1, f) == pre + Sweep(m, x, z, f) + [f(Cell(x, z))]
  {
  }

  /** The end of row x is the start of row x + 1. */
  lemma SweepNextRow<T>(m: nat, x: nat, f: Cell -> T)
    ensures Sweep(m, x + 1, 0, f) == Sweep(m, x, m, f)
  {
  }

  /** One element per visited cell: x full rows of m, then z more. */
  lemma {:induction false} SweepLength<T>(m: nat, x: nat, z: nat, f: Cell -> T)
    requires z <= m
    ensures |Sweep(m, x, z, f)| == x * m + z
    decreases x, z
  {
    if z > 0 {
      SweepLength(m, x, z - 1, f);
    } else if x > 0 {
      SweepLength(m, x - 1, m, f);
      assert (x - 1) * m + m == x * m;
    }
  }

  /** Every visited cell has its element in the list. */
  lemma {:induction false} SweepVisits<T>(m: nat, x: nat, z: nat, f: Cell -> T, c: Cell)
    requires z <= m && Visited(c, m, x, z)
    ensures f(c) in Sweep(m, x, z, f)
    decreases x, z
  {
    if z > 0 {
      if c != Cell(x, z - 1) {
        SweepVisits(m, x, z - 1, f, c);
      }
    } else if x > 0 {
      SweepVisits(m, x - 1, m, f, c);
    }
  }

  /** Every element of the list is the element of a visited cell. */
  lemma {:induction false} SweepOrigin<T>(m: nat, x: nat, z: nat, f: Cell -> T, i: nat) returns (c: Cell)
    requires z <= m && i < |Sweep(m, x, z, f)|
    ensures Visited(c, m, x, z) && Sweep(m, x, z, f)[i] == f(c)
    decreases x, z
  {
    if z > 0 {
      var init := Sweep(m, x, z - 1, f);
      if i < |init| {
        c := SweepOrigin(m, x, z - 1, f, i);
      } else {
        c := Cell(x, z - 1);
      }
    } else {
      c := SweepOrigin(m, x - 1, m, f, i);
    }
  }

  predicate Distinct<T(==)>(s: seq<T>)
  {
    forall i, j :: 0 <= i < j < |s| ==> s[i] != s[j]
  }

  /** A mapping that tells visited cells apart yields a list without repeats. */
  lemma {:induction false} SweepDistinct<T>(m: nat, x: nat, z: nat, f: Cell -> T)
    requires z <= m
    requires forall c, d :: Visited(c, m, x, z) && Visited(d, m, x, z) && c != d ==> f(c) != f(d)
    ensures Distinct(Sweep(m, x, z, f))
    decreases x, z
  {
    if z > 0 {
      var init := Sweep(m, x, z - 1, f);
      var last := Cell(x, z - 1);
      SweepDistinct(m, x, z - 1, f);
      forall i | 0 <= i < |init|
        ensures init[i] != f(last)
      {
        var c := SweepOrigin(m, x, z - 1, f, i);
      }
    } else if x > 0 {
      SweepDistinct(m, x - 1, m, f);
    }
  }

  /** Appending a new element to a list without repeats keeps it without repeats. */
  lemma DistinctSnoc<T>(s: seq<T>, e: T)
    requires Distinct(s) && e !in s
    ensures Distinct(s + [e])
  {
    assert forall i :: 0 <= i < |s| ==> (s + [e])[i] == s[i];
  }

  /** Two lists without repeats and without a common element concatenate to a list without repeats. */
  lemma DistinctAppend<T>(a: seq<T>, b: seq<T>)
    requires Distinct(a) && Distinct(b)
    requires forall i, j :: 0 <= i < |a| && 0 <= j < |b| ==> a[i] != b[j]
    ensures Distinct(a + b)
  {
    var ab := a + b;
    forall i, j | 0 <= i < j < |ab|
      ensures ab[i] != ab[j]
    {
      if j < |a| {
        assert ab[i] == a[i] && ab[j] == a[j];
      } else if i < |a| {
        assert ab[i] == a[i] && ab[j] == b[j - |a|];
      } else {
        assert ab[i] == b[i - |a|] && ab[j] == b[j - |a|];
      }
    }
  }
}
