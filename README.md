# Rectangle and Parallelepiped bounds

A model of the geometry core of a small C# program (`Program.cs`). It has two regions.

- A `Rectangle` is the region `b1 <= x1 <= a1, b2 <= x2 <= a2`, kept in four bound fields.
- A `Parallelepiped` adds a third axis, `b3 <= x3 <= a3`.

Both regions share the same rules:

- Their setters reject a NaN or infinite bound with an `ArgumentException` that names the parameter.
- The setters check the parameters in the fixed order `b1, a1, b2, a2`, then `b3, a3`.
- Each bound pair is stored lower bound first, swapped if needed.
- Their `Contains` queries take a list of coordinates. Both ends of every bound are inclusive.

The files are:

- `bounds.dfy`, module `Bounds`. It holds the input doubles as tags (`Finite(value)`, `NaN`, `PositiveInfinity`, `NegativeInfinity`). It also holds the parameter names, `ValidateNumber`, a run of validations in order (`ValidateInOrder`), and the conditional swap (`Normalise`), with lemmas about them.
- `boxes.dfy`, module `Boxes`. It gives an independent reference meaning for containment. `InBox(axes, coords)` holds when every axis admits the coordinate with the same index, with both ends inclusive. Its lemmas cover the indexwise form, extra coordinates, and splitting a box into a prefix and the rest.
- `shapes.dfy`, module `Shapes`, has these parts:
  - the `Point2D` and `Point3D` value types;
  - the class `Rectangle`, with fields `b1, a1, b2, a2` and the accessors `B1()`, `A1()`, `B2()`, `A2()`;
  - the class `Parallelepiped`, with fields `b3, a3`, the accessors `B3()`, `A3()`, and its Rectangle part `base`;
  - lemmas about the queries.
- `scenarios.dfy`, module `Scenarios`. It holds client methods that use only the contracts to check concrete cases:
  - bounds `(0,10,0,5)` contain `(5,2)` and not `(11,2)`;
  - reversed bounds `(10,0,5,0)` store the same region;
  - a NaN bound is reported before a later infinite one;
  - for the region `(0,10,0,5,0,2)`, the projection query `(5,2)` holds while `(5,2,3)` does not;
  - a rejected `b3` leaves a partial update.

How the C# constructs map to Dafny:

- A thrown `ArgumentException` becomes a return value of type `Status`: `Ok`, or `NotFinite(paramName)`.
- A throwing constructor becomes a static `Create` method. It returns no object (`null`) when the setter throws.
- A Parallelepiped derives from Rectangle. Here it owns its Rectangle part as the `const` field `base`. The C# `base.SetCoefficients(...)` and `base.Contains(...)` become calls on `base`.
- Overloads that share a name get separate names: `ContainsPoint`, `ContainsPoint2D`, `ContainsPoint3D`.
- Stored bounds and coordinates are `real`.

`Rectangle.SetCoefficients` checks all four values before it stores any. The six-argument `Parallelepiped.SetCoefficients` is not atomic. It runs the Rectangle setter first, which already stores the new bounds of axes 1 and 2, and only then checks `b3` and `a3`. So a rejected `b3` or `a3` leaves axes 1 and 2 updated and axis 3 unchanged. Its contract states exactly this.

The value structs `Point2D` and `Point3D` (Program.cs:6-21) are the datatypes `Shapes.Point2D` and `Shapes.Point3D`, with fields `x, y` and `x, y, z`. The parameter names the setters pass to `ValidateNumber` are the constructors `PB1, PA1, PB2, PA2, PB3, PA3` of `Bounds.Param`; `PB1` stands for `nameof(b1)`.

## Model

| member | source | states |
|---|---|---|
| `Bounds.ValidateNumber` | Program.cs:42-46 | The check passes exactly when the value is finite. A NaN, `+Inf` or `-Inf` is rejected with an error that names the given parameter. |
| `Bounds.ValidateInOrder` | Program.cs:51-54 | The ordered run of `ValidateNumber` calls that the setters make, stopping at the first failure. A failure names a parameter of the run whose value is not finite. |
| `Bounds.ValidateInOrderOk` | Program.cs:51-54 | A run of checks passes exactly when every value in it is finite. |
| `Bounds.ValidateInOrderNamesFirst` | Program.cs:51-54 | If an earlier parameter fails, later parameters cannot mask it. The error names the first non-finite parameter in check order, whatever follows it. |
| `Bounds.ValidateInOrderFails` | Program.cs:51-54 | Every failing run has a first non-finite parameter, and the error names that parameter. |
| `Bounds.ValidateInOrderAppend` | Program.cs:104-107 | Checking `b1..a2` and then `b3, a3` is the same as one run over all six. If the first four fail, that error stands. |
| `Bounds.Normalise` | Program.cs:56-60 | The stored pair is ordered (`low <= high`). It holds exactly the two given values, so it runs from their minimum to their maximum. |
| `Bounds.NormaliseUnique` | Program.cs:56-60 | The normalised pair is the only ordered interval made of the two given values. |
| `Bounds.NormaliseSymmetric` | Program.cs:109-110 | A bound pair given in either order is stored as the same interval. |
| `Boxes.InBoxIff` | Program.cs:74-77 | A point is in a box exactly when it has at least as many coordinates as the box has axes, and every coordinate lies within its axis, both ends inclusive. |
| `Boxes.InBoxIgnoresExtra` | Program.cs:75-76 | Coordinates past the last axis do not change the answer. |
| `Boxes.InBoxSplit` | Program.cs:126-131 | A box query is its query on the first `k` axes together with the query on the remaining axes and coordinates. |
| `Shapes.Rectangle.B1` | Program.cs:29 | The stored lower bound of axis 1. Under the ordering invariant it never exceeds the upper bound. |
| `Shapes.Rectangle.A1` | Program.cs:30 | The stored upper bound of axis 1. Under the ordering invariant it is never below the lower bound. |
| `Shapes.Rectangle.B2` | Program.cs:31 | The stored lower bound of axis 2. Under the ordering invariant it never exceeds the upper bound. |
| `Shapes.Rectangle.A2` | Program.cs:32 | The stored upper bound of axis 2. Under the ordering invariant it is never below the lower bound. |
| `Shapes.Rectangle.constructor` | Program.cs:34 | The parameterless constructor leaves all four bounds at their default 0, which satisfies the ordering invariant. |
| `Shapes.Rectangle.Create` | Program.cs:36-39 | The four-argument constructor gives the same error as the setter, and in that case yields no object. Otherwise it yields a fresh Rectangle with normalised bounds. |
| `Shapes.Rectangle.SetCoefficients` | Program.cs:49-61 | The result is the ordered run of checks over `b1, a1, b2, a2`, and it is `Ok` exactly when all four are finite. On success each axis holds `Normalise` of its pair and the invariant `b_i <= a_i` holds. On failure all four stored bounds are unchanged. |
| `Shapes.Rectangle.Contains` | Program.cs:72-78 | Fewer than two coordinates give false. Otherwise the result is the reference box query on the two stored intervals: inclusive, and extra coordinates are ignored. |
| `Shapes.Rectangle.ContainsPoint` | Program.cs:81 | The Point2D query holds exactly when `b1 <= x <= a1` and `b2 <= y <= a2`. |
| `Shapes.Parallelepiped.B3` | Program.cs:89 | The stored lower bound of axis 3. Under the ordering invariant it never exceeds the upper bound. |
| `Shapes.Parallelepiped.A3` | Program.cs:90 | The stored upper bound of axis 3. Under the ordering invariant it is never below the lower bound. |
| `Shapes.Parallelepiped.constructor` | Program.cs:92 | The parameterless constructor gives a fresh Rectangle part, and all six bounds are 0. |
| `Shapes.Parallelepiped.Create` | Program.cs:94-98 | The six-argument constructor fails with the first non-finite parameter of all six, in check order, and then yields no object. Otherwise it yields a fresh object whose three axes are the normalised pairs. |
| `Shapes.Parallelepiped.SetCoefficients` | Program.cs:101-111 | The result is the ordered run of checks over all six parameters. If `b1..a2` are all finite, axes 1 and 2 hold the new normalised pairs, even when `b3` or `a3` is then rejected. If one of `b1..a2` is not finite, nothing changes. If the setter fails, axis 3 keeps its old bounds. On success all three axes are normalised. The ordering invariant is kept. |
| `Shapes.Parallelepiped.Contains` | Program.cs:122-132 | Fewer than two coordinates give false. Exactly two give the Rectangle part's query, and so the box query on axes 1 and 2 only. Three or more give the box query on all three axes, and coordinates beyond index 2 are ignored. |
| `Shapes.Parallelepiped.ContainsPoint2D` | Program.cs:136 | The Point2D query on a Parallelepiped is the projection check on axes 1 and 2. It equals the Rectangle part's Point2D query. |
| `Shapes.Parallelepiped.ContainsPoint3D` | Program.cs:135 | The Point3D query holds exactly when all three coordinates lie within their axes. |
| `Shapes.RectangleIgnoresExtra` | Program.cs:75-77 | Appending coordinates to a query with at least two coordinates does not change a Rectangle's answer. |
| `Shapes.RectangleCornersInside` | Program.cs:77 | Both corners `(B1, B2)` and `(A1, A2)` of a valid Rectangle are inside it, because the bounds are inclusive. |
| `Shapes.ParallelepipedIgnoresExtra` | Program.cs:127-131 | Appending coordinates to a query with at least three coordinates does not change a Parallelepiped's answer. |
| `Shapes.ProjectionIgnoresAxis3` | Program.cs:124-131 | The full query on `(x1, x2, x3)` equals the projection query on `(x1, x2)` together with `B3 <= x3 <= A3`. So the projection query can hold while `x3` is outside axis 3. |
| `Shapes.ProjectionIsRectangle` | Program.cs:126 | A Parallelepiped's two-coordinate query equals the query of any Rectangle with the same first two axes. |

## Left out

- `Program.Main` (the menu, prompts and runtime type checks) and `ReadDoubles` (console reading, token splitting, culture-dependent parsing) are console I/O. They are not part of this model.
- `PrintCoefficients`, on both classes, writes to the console. The text it writes depends on how .NET formats doubles.
- The message text of the `ArgumentException` (`"<name> must be a finite number."`) is not modelled. Only the parameter name it carries is kept.
- IEEE-754 arithmetic is not modelled. Bounds and coordinates are `real`, and NaN and the infinities appear only as tags on setter inputs. So a NaN coordinate in a query, which the source answers with false, cannot be expressed. Neither can the difference between `-0.0` and `0.0`.
- The `null` coordinate array that both `Contains` methods reject cannot occur, because a Dafny `seq` is never null.
- Virtual dispatch through a `Rectangle` reference that holds a `Parallelepiped` is not modelled. The inherited four-argument setter of a Parallelepiped is reached as `base.SetCoefficients`. An overridden `Contains` is called on the object's own class.
