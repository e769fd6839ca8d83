/**
 * The process-wide shape counter of CShape: a Java `int` that every
 * construction pre-increments and whose new value becomes the shape's id.
 */
module Ids {
  import opened ShapeModel

  const Int32Min := -0x8000_0000
  const Int32Max := 0x7fff_ffff
  const Int32Span := 0x1_0000_0000

  predicate IsInt32(x: int) {
    Int32Min <= x <= Int32Max
  }

  /** Two's-complement reduction of a mathematical integer to a Java int. */
  function Wrap32(x: int): (r: int)
    ensures IsInt32(r)
    ensures IsInt32(x) ==> r == x
    ensures (r - x) % Int32Span == 0
  {
    (x - Int32Min) % Int32Span + Int32Min
  }

  /** The value `++counter` leaves in a Java int. */
  function NextId(c: int): int {
    Wrap32(c + 1)
  }

  /** `++counter` adds one, except at the largest int, where it wraps to the smallest. */
  lemma NextIdSteps(c: int)
    requires IsInt32(c)
    ensures c < Int32Max ==> NextId(c) == c + 1
    ensures c == Int32Max ==> NextId(c) == Int32Min
  {
  }

  /** The counter after `n` constructions starting from `start`. */
  function IdAt(start: int, n: nat): int {
    if n == 0 then start else NextId(IdAt(start, n - 1))
  }

  /** Adding one to a Java int before wrapping or after wrapping gives the same int. */
  lemma WrapStep(x: int)
    ensures Wrap32(Wrap32(x) + 1) == Wrap32(x + 1)
  {
    var y := x - Int32Min;
    var q, r := y / Int32Span, y % Int32Span;
    assert y == q * Int32Span + r && 0 <= r < Int32Span;
    if r < Int32Span - 1 {
      assert y + 1 == q * Int32Span + (r + 1);
      assert (y + 1) % Int32Span == r + 1;
    } else {
      assert y + 1 == (q + 1) * Int32Span;
      assert (y + 1) % Int32Span == 0;
    }
  }

  lemma {:induction false} IdAtIsWrapped(start: int, n: nat)
    requires IsInt32(start)
    ensures IdAt(start, n) == Wrap32(start + n)
  {
    if n > 0 {
      IdAtIsWrapped(start, n - 1);
      WrapStep(start + n - 1);
    }
  }

  /** Without overflow, the n-th id after `start` is `start + n`. */
  lemma {:induction false} IdAtNoWrap(start: int, n: nat)
    requires IsInt32(start) && start + n <= Int32Max
    ensures IdAt(start, n) == start + n
  {
    if n > 0 {
      IdAtNoWrap(start, n - 1);
      NextIdSteps(start + n - 1);
    }
  }

  /** Ids strictly increase in creation order as long as the counter has not overflowed. */
  lemma IdsIncrease(start: int, m: nat, n: nat)
    requires IsInt32(start) && m < n && start + n <= Int32Max
    ensures IdAt(start, m) < IdAt(start, n)
  {
    IdAtNoWrap(start, m);
    IdAtNoWrap(start, n);
  }

  /** Fewer than 2^32 constructions apart, two ids always differ, even across the wrap. */
  lemma IdsNeverRepeat(start: int, m: nat, n: nat)
    requires IsInt32(start) && m < n < m + Int32Span
    ensures IdAt(start, m) != IdAt(start, n)
  {
    IdAtIsWrapped(start, m);
    IdAtIsWrapped(start, n);
    ResiduesDiffer(start + m - Int32Min, start + n - Int32Min);
  }

  /** Two numbers fewer than 2^32 apart leave different remainders modulo 2^32. */
  lemma ResiduesDiffer(a: int, b: int)
    requires a < b < a + Int32Span
    ensures a % Int32Span != b % Int32Span
  {
    var qa, ra := a / Int32Span, a % Int32Span;
    var qb, rb := b / Int32Span, b % Int32Span;
    assert a == qa * Int32Span + ra && 0 <= ra < Int32Span;
    assert b == qb * Int32Span + rb && 0 <= rb < Int32Span;
    if qb == qa {
      assert rb - ra == b - a;
    } else {
      assert qb > qa;
      assert rb - ra == (b - a) - (qb - qa) * Int32Span;
    }
  }

  /** Owns the counter that CShape keeps as a static field. */
  class IdCounter {
    var counter: int

    ghost predicate Valid()
      reads this
    {
      IsInt32(counter)
    }

    /** The static initialiser `counter = 0`. */
    constructor ()
      ensures Valid() && counter == 0
    {
      counter := 0;
    }

    /** `this.id = ++counter`. */
    method Next() returns (id: int)
      requires Valid()
      modifies this
      ensures Valid()
      ensures counter == NextId(old(counter)) && id == counter
    {
      counter := NextId(counter);
      id := counter;
    }

    /** `new COval(h, v)`: one increment, then the clamped dimensions. */
    method NewOval(horizontalRadius: int, verticalRadius: int) returns (s: Shape)
      requires Valid()
      modifies this
      ensures Valid() && counter == NextId(old(counter))
      ensures s == MakeOval(counter, horizontalRadius, verticalRadius)
    {
      var id := Next();
      s := MakeOval(id, horizontalRadius, verticalRadius);
    }

    /** `new CCircle(r)`, which is `COval(r, r)` with its own label and format. */
    method NewCircle(radius: int) returns (s: Shape)
      requires Valid()
      modifies this
      ensures Valid() && counter == NextId(old(counter))
      ensures s == MakeCircle(counter, radius)
    {
      var id := Next();
      s := MakeCircle(id, radius);
    }

    /** `new CRectangle(l, w)`. */
    method NewRectangle(length: int, width: int) returns (s: Shape)
      requires Valid()
      modifies this
      ensures Valid() && counter == NextId(old(counter))
      ensures s == MakeRectangle(counter, length, width)
    {
      var id := Next();
      s := MakeRectangle(id, length, width);
    }

    /** `new CSquare(side)`, which is `CRectangle(side, side)` with its own label. */
    method NewSquare(side: int) returns (s: Shape)
      requires Valid()
      modifies this
      ensures Valid() && counter == NextId(old(counter))
      ensures s == MakeSquare(counter, side)
    {
      var id := Next();
      s := MakeSquare(id, side);
    }
  }
}
