/**
 * Bound values as the setters of Rectangle and Parallelepiped receive them:
 * the finiteness check that rejects NaN and the infinities, the fixed order in
 * which the parameters are checked, and the normalisation of a bound pair into
 * an ordered closed interval.
 */
module Bounds {

  /** A double as far as validation tells values apart: a finite number, NaN, or an infinity. */
  datatype Double = Finite(value: real) | NaN | PositiveInfinity | NegativeInfinity

  /** The bound parameters, as the setters name them: PB1 is `nameof(b1)`, and so on. */
  datatype Param = PB1 | PA1 | PB2 | PA2 | PB3 | PA3

  /** The result of a validation step: nothing thrown, or the ArgumentException for one parameter. */
  datatype Status = Ok | NotFinite(paramName: Param)

  /** A closed interval `low <= x <= high` on one axis. */
  datatype Interval = Interval(low: real, high: real)

  /** ValidateNumber: a NaN or infinite value is rejected with an error naming the parameter. */
  function ValidateNumber(v: Double, name: Param): (r: Status)
    ensures r.Ok? <==> v.Finite?
    ensures r.NotFinite? ==> r.paramName == name
  {
    if v.NaN? || v.PositiveInfinity? || v.NegativeInfinity? then NotFinite(name) else Ok
  }

  /**
   * A run of ValidateNumber calls over the parameters in the order given:
   * the first rejected value ends the run, later parameters are not looked at.
   */
  function ValidateInOrder(args: seq<(Param, Double)>): (r: Status)
    ensures r.NotFinite? ==> exists i :: 0 <= i < |args| && args[i].0 == r.paramName && !args[i].1.Finite?
  {
    if args == [] then Ok
    else
      var first := ValidateNumber(args[0].1, args[0].0);
      if first.NotFinite? then first else ValidateInOrder(args[1..])
  }

  /** Position k holds the first non-finite value of args. */
  ghost predicate FirstNotFinite(args: seq<(Param, Double)>, k: int)
  {
    0 <= k < |args| && !args[k].1.Finite? && forall i :: 0 <= i < k ==> args[i].1.Finite?
  }

  /** The run passes exactly when every value is finite. */
  lemma {:induction false} ValidateInOrderOk(args: seq<(Param, Double)>)
    ensures ValidateInOrder(args) == Ok <==> forall i :: 0 <= i < |args| ==> args[i].1.Finite?
  {
    if args != [] {
      ValidateInOrderOk(args[1..]);
      assert forall i :: 1 <= i < |args| ==> args[i] == args[1..][i - 1];
    }
  }

  /** When the run fails, the error names the first non-finite parameter, whatever follows it. */
  lemma {:induction false} ValidateInOrderNamesFirst(args: seq<(Param, Double)>, k: int)
    requires FirstNotFinite(args, k)
    ensures ValidateInOrder(args) == NotFinite(args[k].0)
  {
    if k > 0 {
      assert args[0].1.Finite?;
      assert forall i :: 0 <= i < k - 1 ==> args[1..][i] == args[i + 1];
      ValidateInOrderNamesFirst(args[1..], k - 1);
    }
  }

  /** Every failure of the run comes from a first non-finite parameter, and names it. */
  lemma {:induction false} ValidateInOrderFails(args: seq<(Param, Double)>)
    requires ValidateInOrder(args) != Ok
    ensures exists k :: FirstNotFinite(args, k) && ValidateInOrder(args) == NotFinite(args[k].0)
  {
    if args[0].1.Finite? {
      ValidateInOrderFails(args[1..]);
      var k :| FirstNotFinite(args[1..], k) && ValidateInOrder(args[1..]) == NotFinite(args[1..][k].0);
      assert forall i :: 1 <= i < k + 1 ==> args[i] == args[1..][i - 1];
      assert FirstNotFinite(args, k + 1);
    } else {
      assert FirstNotFinite(args, 0);
    }
  }

  /** Running two lists of checks one after the other is one run over both. */
  lemma {:induction false} ValidateInOrderAppend(xs: seq<(Param, Double)>, ys: seq<(Param, Double)>)
    ensures ValidateInOrder(xs + ys) == if ValidateInOrder(xs) == Ok then ValidateInOrder(ys) else ValidateInOrder(xs)
  {
    if xs == [] {
      assert xs + ys == ys;
    } else {
      assert (xs + ys)[0] == xs[0];
      assert (xs + ys)[1..] == xs[1..] + ys;
      ValidateInOrderAppend(xs[1..], ys);
    }
  }

  /**
   * The conditional swap of the setters: the pair is stored lower bound first.
   * The interval is ordered, holds exactly the two given values, and so runs
   * from the smaller to the larger.
   */
  function Normalise(b: real, a: real): (iv: Interval)
    ensures iv.low <= iv.high
    ensures multiset{iv.low, iv.high} == multiset{b, a}
    ensures iv.low <= b && iv.low <= a && b <= iv.high && a <= iv.high
  {
    if b <= a then Interval(b, a) else Interval(a, b)
  }

  /** An ordered interval holding exactly the values b and a is the normalised pair. */
  lemma NormaliseUnique(b: real, a: real, iv: Interval)
    requires iv.low <= iv.high
    requires multiset{iv.low, iv.high} == multiset{b, a}
    ensures iv == Normalise(b, a)
  {
    assert iv.low in multiset{b, a} && iv.high in multiset{b, a};
    assert b in multiset{iv.low, iv.high} && a in multiset{iv.low, iv.high};
  }

  /** Giving a bound pair in either order stores the same interval. */
  lemma NormaliseSymmetric(b: real, a: real)
    ensures Normalise(b, a) == Normalise(a, b)
  {
    NormaliseUnique(b, a, Normalise(a, b));
  }
}
