/**
 * Client code: what a caller can conclude from the contracts of Shapes alone,
 * for concrete bounds and points.
 */
module Scenarios {
  import opened Bounds
  import opened Shapes

  /** Bounds (0, 10, 0, 5): (5, 2) is inside, (11, 2) is not, and the corners are. */
  method RectangleQueries()
  {
    var r, rect := Rectangle.Create(Finite(0.0), Finite(10.0), Finite(0.0), Finite(5.0));
    assert r == Ok;
    assert rect.Contains([5.0, 2.0]);
    assert !rect.Contains([11.0, 2.0]);
    assert rect.Contains([0.0, 0.0]) && rect.Contains([10.0, 5.0]);
    assert !rect.Contains([5.0]) && !rect.Contains([]);
    assert rect.ContainsPoint(Point2D(10.0, 0.0));
  }

  /** Bounds given in reverse order, (10, 0, 5, 0), store the same region as (0, 10, 0, 5). */
  method ReversedBounds()
  {
    var r, rect := Rectangle.Create(Finite(10.0), Finite(0.0), Finite(5.0), Finite(0.0));
    assert r == Ok;
    assert rect.Axes() == [Interval(0.0, 10.0), Interval(0.0, 5.0)];
  }

  /** A NaN bound is reported even when a later bound is infinite, and nothing is built. */
  method RejectedBound()
  {
    var args := RectangleArgs(Finite(0.0), NaN, PositiveInfinity, Finite(5.0));
    ValidateInOrderNamesFirst(args, 1);
    var r, rect := Rectangle.Create(Finite(0.0), NaN, PositiveInfinity, Finite(5.0));
    assert r == NotFinite(PA1) && rect == null;
  }

  /** Bounds (0, 10, 0, 5, 0, 2): the projection query ignores axis 3, the full query does not. */
  method ParallelepipedQueries()
  {
    var r, par := Parallelepiped.Create(Finite(0.0), Finite(10.0), Finite(0.0), Finite(5.0), Finite(0.0), Finite(2.0));
    assert r == Ok;
    assert par.Axes() == [Interval(0.0, 10.0), Interval(0.0, 5.0), Interval(0.0, 2.0)];
    assert par.base.Axes() == [Interval(0.0, 10.0), Interval(0.0, 5.0)];
    assert par.Contains([5.0, 2.0]);
    ProjectionIgnoresAxis3(par, 5.0, 2.0, 1.0);
    ProjectionIgnoresAxis3(par, 5.0, 2.0, 3.0);
    assert par.Contains([5.0, 2.0, 1.0]);
    assert !par.Contains([5.0, 2.0, 3.0]);
    assert par.ContainsPoint2D(Point2D(5.0, 2.0));
    assert !par.ContainsPoint3D(Point3D(5.0, 2.0, 3.0));
  }

  /** A rejected b3 leaves axes 1 and 2 set to the new bounds and axis 3 as it was. */
  method PartialUpdate()
  {
    var par := new Parallelepiped();
    var r := par.SetCoefficients(Finite(10.0), Finite(0.0), Finite(5.0), Finite(0.0), NaN, Finite(2.0));
    ValidateInOrderNamesFirst(ParallelepipedArgs(Finite(10.0), Finite(0.0), Finite(5.0), Finite(0.0), NaN, Finite(2.0)), 4);
    assert r == NotFinite(PB3);
    assert par.base.Axes() == [Interval(0.0, 10.0), Interval(0.0, 5.0)];
    assert par.b3 == 0.0 && par.a3 == 0.0;
  }
}
