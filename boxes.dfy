/**
 * The reference meaning of a containment query: a point lies in an
 * axis-aligned box when each axis admits the coordinate of the same index,
 * both ends inclusive. Coordinates beyond the last axis play no part, and a
 * point with fewer coordinates than the box has axes lies in no box.
 */
module Boxes {
  import opened Bounds

  /** coords lies within every interval of axes, one coordinate per axis in order. */
  function InBox(axes: seq<Interval>, coords: seq<real>): (b: bool)
  {
    if axes == [] then true
    else |coords| > 0 && axes[0].low <= coords[0] <= axes[0].high && InBox(axes[1..], coords[1..])
  }

  /** InBox by index: enough coordinates, and each within its axis's closed interval. */
  lemma {:induction false} InBoxIff(axes: seq<Interval>, coords: seq<real>)
    ensures InBox(axes, coords) <==>
      |axes| <= |coords| && forall i :: 0 <= i < |axes| ==> axes[i].low <= coords[i] <= axes[i].high
  {
    if axes != [] && |coords| > 0 {
      InBoxIff(axes[1..], coords[1..]);
      assert forall i :: 1 <= i < |axes| && i < |coords| ==> axes[i] == axes[1..][i - 1] && coords[i] == coords[1..][i - 1];
    }
  }

  /** Coordinates past the last axis do not change the answer. */
  lemma {:induction false} InBoxIgnoresExtra(axes: seq<Interval>, coords: seq<real>, extra: seq<real>)
    requires |axes| <= |coords|
    ensures InBox(axes, coords + extra) == InBox(axes, coords)
  {
    if axes != [] {
      assert (coords + extra)[0] == coords[0];
      assert (coords + extra)[1..] == coords[1..] + extra;
      InBoxIgnoresExtra(axes[1..], coords[1..], extra);
    }
  }

  /** A box splits into its first k axes, checked on the first coordinates, and the rest. */
  lemma {:induction false} InBoxSplit(axes: seq<Interval>, coords: seq<real>, k: nat)
    requires k <= |axes| && k <= |coords|
    ensures InBox(axes, coords) == (InBox(axes[..k], coords) && InBox(axes[k..], coords[k..]))
  {
    if k > 0 {
      assert axes[..k][1..] == axes[1..][..k - 1];
      assert axes[k..] == axes[1..][k - 1..];
      assert coords[k..] == coords[1..][k - 1..];
      InBoxSplit(axes[1..], coords[1..], k - 1);
    } else {
      assert axes[k..] == axes && coords[k..] == coords;
    }
  }
}
