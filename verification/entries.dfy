/**
 * The values a world producer hands to the world builder: the entries of the
 * list it returns, the dictionary values inside them, block colours and
 * integer positions, plus the decimal rendering of natural numbers used when
 * the game writes numbers into names and on-screen text.
 */
module Entries {

  datatype Option<+T> = None | Some(value: T)

  /** The engine colours the producers use; any other colour is Custom. */
  datatype Color = Red | Orange | Yellow | Green | Blue | White | Black | Custom(code: int)

  /** A value stored under a key of a dictionary entry. */
  datatype Val =
    | Str(s: string)          // a string, e.g. a block type
    | Paint(c: Color)         // an engine colour
    | Coords(xs: seq<int>)    // a tuple or list of numbers, e.g. a position
    | Num(n: int)             // a lone number
    | NoneVal                 // Python's None

  /**
   * One element of the list a producer returns: a tuple of numbers, a list of
   * numbers, a dictionary, or anything else (a string, a number, None, ...).
   * Of a dictionary only the values under the three keys the builder reads
   * are kept: "position", "color" and "type" (None when the key is absent).
   */
  datatype Entry =
    | Tup(items: seq<int>)
    | List(items: seq<int>)
    | Dict(position: Option<Val>, color: Option<Val>, blockType: Option<Val>)
    | Other

  datatype Pos = Pos(x: int, y: int, z: int)

  function PosOf(xs: seq<int>): Pos
    requires |xs| == 3
  {
    Pos(xs[0], xs[1], xs[2])
  }

  /** The (x, y, z) entry a producer writes as a plain 3-tuple. */
  function Triple(x: int, y: int, z: int): (e: Entry)
    ensures e.Tup? && |e.items| == 3
  {
    Tup([x, y, z])
  }

  /** A dictionary entry holding all three keys: a position, a colour and a type. */
  function Detailed(x: int, y: int, z: int, c: Color, t: string): (e: Entry)
    ensures e.Dict? && e.position.Some? && e.color.Some? && e.blockType.Some?
  {
    Dict(Some(Coords([x, y, z])), Some(Paint(c)), Some(Str(t)))
  }

  /** The value a dictionary entry holds under "type", if any. */
  function TypeOf(e: Entry): Option<Val>
  {
    if e.Dict? then e.blockType else None
  }

  /** The value a dictionary entry holds under "color", if any. */
  function ColorOf(e: Entry): Option<Val>
  {
    if e.Dict? then e.color else None
  }

  /** Whether the value under "position" is three coordinates. */
  predicate IsTriple(v: Option<Val>)
  {
    v.Some? && v.value.Coords? && |v.value.xs| == 3
  }

  /**
   * The position an entry denotes: a 3-tuple, or a dictionary whose
   * "position" is a 3-coordinate value. Every other entry has none.
   */
  function EntryPos(e: Entry): (p: Option<Pos>)
    ensures e.Tup? && |e.items| == 3 ==> p == Some(Pos(e.items[0], e.items[1], e.items[2]))
    ensures e.List? || e.Other? || (e.Tup? && |e.items| != 3) ==> p.None?
    ensures e.Dict? ==> (p.Some? <==> IsTriple(e.position))
    ensures e.Dict? && p.Some? ==> p.value == PosOf(e.position.value.xs)
  {
    match e
    case Tup(xs) => if |xs| == 3 then Some(PosOf(xs)) else None
    case Dict(position, _, _) => if IsTriple(position) then Some(PosOf(position.value.xs)) else None
    case _ => None
  }

  /** Whether entry `e` denotes a position at height `h`. */
  predicate AtHeight(e: Entry, h: int)
  {
    EntryPos(e).Some? && EntryPos(e).value.y == h
  }

  /** How many entries of `es` denote a position at height `h`. */
  function CountAtHeight(es: seq<Entry>, h: int): (n: nat)
    ensures n <= |es|
  {
    if es == [] then 0
    else CountAtHeight(es[..|es| - 1], h) + (if AtHeight(es[|es| - 1], h) then 1 else 0)
  }

  lemma {:induction false} CountAtHeightAppend(a: seq<Entry>, b: seq<Entry>, h: int)
    ensures CountAtHeight(a + b, h) == CountAtHeight(a, h) + CountAtHeight(b, h)
    decreases |b|
  {
    if b == [] {
      assert a + b == a;
    } else {
      assert (a + b)[..|a + b| - 1] == a + b[..|b| - 1];
      CountAtHeightAppend(a, b[..|b| - 1], h);
    }
  }

  /** Appending one entry adds one to the count at its height and nothing elsewhere. */
  lemma CountAtHeightSnoc(es: seq<Entry>, e: Entry, h: int)
    ensures CountAtHeight(es + [e], h) == CountAtHeight(es, h) + (if AtHeight(e, h) then 1 else 0)
  {
    assert (es + [e])[..|es|] == es;
  }

  /** When every entry of `es` lies at height `y`, the count at `h` is all or nothing. */
  lemma {:induction false} CountAtHeightUniform(es: seq<Entry>, y: int, h: int)
    requires forall i :: 0 <= i < |es| ==> AtHeight(es[i], y)
    ensures CountAtHeight(es, h) == if h == y then |es| else 0
    decreases |es|
  {
    if es != [] {
      CountAtHeightUniform(es[..|es| - 1], y, h);
    }
  }

  // ---------------------------------------------------------------------
  // Decimal rendering of natural numbers (Python's str on a non-negative int)

  predicate IsDigit(c: char)
  {
    '0' <= c <= '9'
  }

  predicate AllDigits(s: string)
  {
    forall i :: 0 <= i < |s| ==> IsDigit(s[i])
  }

  function DigitChar(d: nat): (c: char)
    requires d < 10
    ensures IsDigit(c) && c as int - '0' as int == d
  {
    ('0' as int + d) as char
  }

  /** The decimal digits of `n`, most significant first, without leading zeros. */
  function NatToString(n: nat): (s: string)
    ensures |s| >= 1 && AllDigits(s)
    ensures |s| > 1 ==> s[0] != '0'
    decreases n
  {
    if n < 10 then [DigitChar(n)] else NatToString(n / 10) + [DigitChar(n % 10)]
  }

  /** The number a string of decimal digits denotes. */
  function DigitsValue(s: string): nat
    requires AllDigits(s)
  {
    if s == [] then 0 else DigitsValue(s[..|s| - 1]) * 10 + (s[|s| - 1] as int - '0' as int)
  }

  /** Reading back the rendering of `n` gives `n`. */
  lemma {:induction false} DigitsRoundTrip(n: nat)
    ensures DigitsValue(NatToString(n)) == n
    decreases n
  {
    var s := NatToString(n);
    if n >= 10 {
      DigitsRoundTrip(n / 10);
      assert s[..|s| - 1] == NatToString(n / 10);
    }
  }

  /** Distinct numbers render to distinct strings. */
  lemma NatToStringInjective(m: nat, n: nat)
    requires NatToString(m) == NatToString(n)
    ensures m == n
  {
    DigitsRoundTrip(m);
    DigitsRoundTrip(n);
  }
}
