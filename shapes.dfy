/**
 * The two regions of the program. A Rectangle is `b1 <= x1 <= a1, b2 <= x2 <= a2`
 * held in four bound fields; a Parallelepiped adds `b3 <= x3 <= a3`. The
 * Parallelepiped extends the Rectangle; here it owns its Rectangle part as the
 * field `base`, so that `base.SetCoefficients` and `base.Contains` are calls on
 * that part.
 */
module Shapes {
  import opened Bounds
  import opened Boxes

  /** A point of the plane. */
  datatype Point2D = Point2D(x: real, y: real)

  /** A point of space. */
  datatype Point3D = Point3D(x: real, y: real, z: real)

  /** The checks of the four-argument setter, in the order it makes them. */
  function RectangleArgs(b1: Double, a1: Double, b2: Double, a2: Double): (args: seq<(Param, Double)>)
  {
    [(PB1, b1), (PA1, a1), (PB2, b2), (PA2, a2)]
  }

  /** The checks of the six-argument setter, in the order it makes them. */
  function ParallelepipedArgs(b1: Double, a1: Double, b2: Double, a2: Double, b3: Double, a3: Double): (args: seq<(Param, Double)>)
  {
    RectangleArgs(b1, a1, b2, a2) + [(PB3, b3), (PA3, a3)]
  }

  class Rectangle {
    var b1: real
    var a1: real
    var b2: real
    var a2: real

    /** Every stored pair is lower bound first. */
    ghost predicate Valid()
      reads this
    {
      b1 <= a1 && b2 <= a2
    }

    /** The lower bound of axis 1; it never exceeds the upper one. */
    function B1(): (v: real)
      reads this
      ensures Valid() ==> v <= a1
    {
      b1
    }

    /** The upper bound of axis 1; it is never below the lower one. */
    function A1(): (v: real)
      reads this
      ensures Valid() ==> b1 <= v
    {
      a1
    }

    /** The lower bound of axis 2; it never exceeds the upper one. */
    function B2(): (v: real)
      reads this
      ensures Valid() ==> v <= a2
    {
      b2
    }

    /** The upper bound of axis 2; it is never below the lower one. */
    function A2(): (v: real)
      reads this
      ensures Valid() ==> b2 <= v
    {
      a2
    }

    /** The stored bounds as intervals, axis 1 first. */
    function Axes(): (axes: seq<Interval>)
      reads this
      ensures |axes| == 2
    {
      [Interval(b1, a1), Interval(b2, a2)]
    }

    /** The parameterless constructor: the fields keep their default value 0. */
    constructor ()
      ensures Valid()
      ensures Axes() == [Interval(0.0, 0.0), Interval(0.0, 0.0)]
    {
      b1, a1, b2, a2 := 0.0, 0.0, 0.0, 0.0;
    }

    /**
     * The four-argument constructor: a new Rectangle whose bounds are set by
     * SetCoefficients, or no object when that setter throws.
     */
    static method Create(b1: Double, a1: Double, b2: Double, a2: Double) returns (r: Status, rect: Rectangle?)
      ensures r == ValidateInOrder(RectangleArgs(b1, a1, b2, a2))
      ensures r.Ok? <==> b1.Finite? && a1.Finite? && b2.Finite? && a2.Finite?
      ensures r.Ok? <==> rect != null
      ensures rect != null ==> fresh(rect) && rect.Valid()
      ensures rect != null ==> rect.Axes() == [Normalise(b1.value, a1.value), Normalise(b2.value, a2.value)]
    {
      var obj := new Rectangle();
      r := obj.SetCoefficients(b1, a1, b2, a2);
      rect := if r.Ok? then obj else null;
    }

    /**
     * Validates b1, a1, b2, a2 in that order, and only when all four are
     * finite stores each pair lower bound first. A failure changes nothing.
     */
    method SetCoefficients(b1: Double, a1: Double, b2: Double, a2: Double) returns (r: Status)
      modifies this
      ensures r == ValidateInOrder(RectangleArgs(b1, a1, b2, a2))
      ensures r.Ok? <==> b1.Finite? && a1.Finite? && b2.Finite? && a2.Finite?
      ensures r.Ok? ==> Valid() && Axes() == [Normalise(b1.value, a1.value), Normalise(b2.value, a2.value)]
      ensures r.NotFinite? ==> Axes() == old(Axes())
    {
      ghost var args := RectangleArgs(b1, a1, b2, a2);
      assert args == [(PB1, b1)] + [(PA1, a1)] + [(PB2, b2)] + [(PA2, a2)];
      r := ValidateNumber(b1, PB1);
      if r.NotFinite? { return; }
      assert ValidateInOrder(args) == ValidateInOrder(args[1..]);
      r := ValidateNumber(a1, PA1);
      if r.NotFinite? { return; }
      assert ValidateInOrder(args) == ValidateInOrder(args[2..]) by {
        assert args[1..][1..] == args[2..];
      }
      r := ValidateNumber(b2, PB2);
      if r.NotFinite? { return; }
      assert ValidateInOrder(args) == ValidateInOrder(args[3..]) by {
        assert args[2..][1..] == args[3..];
      }
      r := ValidateNumber(a2, PA2);
      if r.NotFinite? { return; }
      assert ValidateInOrder(args) == Ok by {
        assert args[3..][1..] == [];
        assert ValidateInOrder(args[3..]) == ValidateInOrder(args[3..][1..]);
      }

      if b1.value <= a1.value { this.b1, this.a1 := b1.value, a1.value; }
      else { this.b1, this.a1 := a1.value, b1.value; }

      if b2.value <= a2.value { this.b2, this.a2 := b2.value, a2.value; }
      else { this.b2, this.a2 := a2.value, b2.value; }
    }

    /**
     * The coordinate-list query: fewer than two coordinates are never inside;
     * otherwise x1 and x2 are compared with the bounds, both ends inclusive,
     * and further coordinates are ignored.
     */
    function Contains(coords: seq<real>): (r: bool)
      reads this
      ensures |coords| < 2 ==> !r
      ensures r == InBox(Axes(), coords)
    {
      InBoxIff(Axes(), coords);
      if |coords| < 2 then false
      else
        var x1 := coords[0];
        var x2 := coords[1];
        x1 >= B1() && x1 <= A1() && x2 >= B2() && x2 <= A2()
    }

    /** The Point2D query asks the coordinate-list query for (x, y). */
    function ContainsPoint(p: Point2D): (r: bool)
      reads this
      ensures r <==> b1 <= p.x <= a1 && b2 <= p.y <= a2
    {
      Contains([p.x, p.y])
    }
  }

  class Parallelepiped {
    /** The Rectangle part: bounds of axes 1 and 2. */
    const base: Rectangle
    var b3: real
    var a3: real

    /** Every stored pair, of the Rectangle part and of axis 3, is lower bound first. */
    ghost predicate Valid()
      reads this, base
    {
      base.Valid() && b3 <= a3
    }

    /** The lower bound of axis 3; it never exceeds the upper one. */
    function B3(): (v: real)
      reads this, base
      ensures Valid() ==> v <= a3
    {
      b3
    }

    /** The upper bound of axis 3; it is never below the lower one. */
    function A3(): (v: real)
      reads this, base
      ensures Valid() ==> b3 <= v
    {
      a3
    }

    /** The stored bounds as intervals, axes 1, 2 and 3 in order. */
    function Axes(): (axes: seq<Interval>)
      reads this, base
      ensures |axes| == 3 && axes[..2] == base.Axes() && axes[2] == Interval(b3, a3)
    {
      base.Axes() + [Interval(b3, a3)]
    }

    /** The parameterless constructor: every bound keeps its default value 0. */
    constructor ()
      ensures fresh(base) && Valid()
      ensures Axes() == [Interval(0.0, 0.0), Interval(0.0, 0.0), Interval(0.0, 0.0)]
    {
      base := new Rectangle();
      b3, a3 := 0.0, 0.0;
    }

    /**
     * The six-argument constructor: the base constructor runs the four-argument
     * setter, then the six-argument setter runs. Either may throw, and then no
     * object is produced.
     */
    static method Create(b1: Double, a1: Double, b2: Double, a2: Double, b3: Double, a3: Double)
      returns (r: Status, par: Parallelepiped?)
      ensures r == ValidateInOrder(ParallelepipedArgs(b1, a1, b2, a2, b3, a3))
      ensures r.Ok? <==> b1.Finite? && a1.Finite? && b2.Finite? && a2.Finite? && b3.Finite? && a3.Finite?
      ensures r.Ok? <==> par != null
      ensures par != null ==> fresh(par) && fresh(par.base) && par.Valid()
      ensures par != null ==>
        par.Axes() == [Normalise(b1.value, a1.value), Normalise(b2.value, a2.value), Normalise(b3.value, a3.value)]
    {
      var obj := new Parallelepiped();
      r := obj.base.SetCoefficients(b1, a1, b2, a2);
      if r.NotFinite? {
        ValidateInOrderAppend(RectangleArgs(b1, a1, b2, a2), [(PB3, b3), (PA3, a3)]);
        par := null;
        return;
      }
      r := obj.SetCoefficients(b1, a1, b2, a2, b3, a3);
      par := if r.Ok? then obj else null;
    }

    /**
     * The six-argument setter. It first runs the Rectangle setter on axes 1
     * and 2, which may already store new bounds there, and only then validates
     * b3 and a3. So it is not atomic: when only b3 or a3 is rejected, axes 1
     * and 2 hold the new normalised bounds and axis 3 its old ones.
     */
    method SetCoefficients(b1: Double, a1: Double, b2: Double, a2: Double, b3: Double, a3: Double)
      returns (r: Status)
      modifies this, base
      ensures r == ValidateInOrder(ParallelepipedArgs(b1, a1, b2, a2, b3, a3))
      ensures r.Ok? <==> b1.Finite? && a1.Finite? && b2.Finite? && a2.Finite? && b3.Finite? && a3.Finite?
      ensures r.Ok? ==>
        Valid() && Axes() == [Normalise(b1.value, a1.value), Normalise(b2.value, a2.value), Normalise(b3.value, a3.value)]
      ensures b1.Finite? && a1.Finite? && b2.Finite? && a2.Finite? ==>
        base.Axes() == [Normalise(b1.value, a1.value), Normalise(b2.value, a2.value)]
      ensures !(b1.Finite? && a1.Finite? && b2.Finite? && a2.Finite?) ==> Axes() == old(Axes())
      ensures r.NotFinite? ==> this.b3 == old(this.b3) && this.a3 == old(this.a3)
      ensures old(Valid()) ==> Valid()
    {
      ghost var tail := [(PB3, b3), (PA3, a3)];
      ValidateInOrderAppend(RectangleArgs(b1, a1, b2, a2), tail);
      r := base.SetCoefficients(b1, a1, b2, a2);
      if r.NotFinite? { return; }

      r := ValidateNumber(b3, PB3);
      if r.NotFinite? { return; }
      assert ValidateInOrder(tail) == ValidateInOrder(tail[1..]);
      r := ValidateNumber(a3, PA3);
      if r.NotFinite? { return; }
      assert ValidateInOrder(tail) == Ok by {
        assert tail[1..][1..] == [];
        assert ValidateInOrder(tail[1..]) == ValidateInOrder(tail[1..][1..]);
      }

      if b3.value <= a3.value { this.b3, this.a3 := b3.value, a3.value; }
      else { this.b3, this.a3 := a3.value, b3.value; }
    }

    /**
     * The coordinate-list query. Fewer than two coordinates are never inside;
     * exactly two are the projection check of the Rectangle part, which ignores
     * axis 3; three or more are checked on all three axes, and further
     * coordinates are ignored.
     */
    function Contains(coords: seq<real>): (r: bool)
      reads this, base
      ensures |coords| < 2 ==> !r
      ensures |coords| == 2 ==> r == base.Contains(coords) && r == InBox(Axes()[..2], coords)
      ensures |coords| != 2 ==> r == InBox(Axes(), coords)
    {
      InBoxIff(Axes(), coords);
      if |coords| < 2 then false
      else if |coords| == 2 then base.Contains(coords)
      else
        var x1 := coords[0];
        var x2 := coords[1];
        var x3 := coords[2];
        base.Contains([x1, x2]) && x3 >= B3() && x3 <= A3()
    }

    /** The Point2D query: the projection check on axes 1 and 2. */
    function ContainsPoint2D(p: Point2D): (r: bool)
      reads this, base
      ensures r <==> base.b1 <= p.x <= base.a1 && base.b2 <= p.y <= base.a2
      ensures r == base.ContainsPoint(p)
    {
      Contains([p.x, p.y])
    }

    /** The Point3D query: the full check on all three axes. */
    function ContainsPoint3D(p: Point3D): (r: bool)
      reads this, base
      ensures r <==> base.b1 <= p.x <= base.a1 && base.b2 <= p.y <= base.a2 && b3 <= p.z <= a3
    {
      Contains([p.x, p.y, p.z])
    }
  }

  /** Coordinates past the second do not change a Rectangle query. */
  lemma RectangleIgnoresExtra(rect: Rectangle, coords: seq<real>, extra: seq<real>)
    requires |coords| >= 2
    ensures rect.Contains(coords + extra) == rect.Contains(coords)
  {
    InBoxIgnoresExtra(rect.Axes(), coords, extra);
  }

  /** Both corners of a Rectangle lie in it: the bounds are inclusive. */
  lemma RectangleCornersInside(rect: Rectangle)
    requires rect.Valid()
    ensures rect.Contains([rect.B1(), rect.B2()]) && rect.Contains([rect.A1(), rect.A2()])
  {
    InBoxIff(rect.Axes(), [rect.B1(), rect.B2()]);
    InBoxIff(rect.Axes(), [rect.A1(), rect.A2()]);
  }

  /** Coordinates past the third do not change a three-coordinate Parallelepiped query. */
  lemma ParallelepipedIgnoresExtra(par: Parallelepiped, coords: seq<real>, extra: seq<real>)
    requires |coords| >= 3
    ensures par.Contains(coords + extra) == par.Contains(coords)
  {
    InBoxIgnoresExtra(par.Axes(), coords, extra);
  }

  /**
   * A full query is the projection query on (x1, x2) together with the axis 3
   * check; so the projection query holds whenever the full one does, and also
   * when x3 lies outside axis 3.
   */
  lemma ProjectionIgnoresAxis3(par: Parallelepiped, x1: real, x2: real, x3: real)
    ensures par.Contains([x1, x2, x3]) <==> par.Contains([x1, x2]) && par.B3() <= x3 <= par.A3()
  {
    InBoxSplit(par.Axes(), [x1, x2, x3], 2);
    assert [x1, x2, x3][2..] == [x3];
    assert par.Axes()[2..] == [Interval(par.b3, par.a3)];
  }

  /** The projection query of a Parallelepiped is the query of a Rectangle with the same first two axes. */
  lemma ProjectionIsRectangle(par: Parallelepiped, rect: Rectangle, x1: real, x2: real)
    requires rect.Axes() == par.base.Axes()
    ensures par.Contains([x1, x2]) == rect.Contains([x1, x2])
  {
  }
}
