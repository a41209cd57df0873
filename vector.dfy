/**
 * `Vector` (generator/vector.ts): a JavaScript array of numbers with named-axis
 * accessors and an in-place unit scale. The model keeps the slots in an
 * `array<real>` whose length is fixed when the vector is built.
 */
module Vectors {

  /** The unit-scale factor `SCALE` applied by `scale()`. */
  const SCALE: real := 100.0

  /** A number JavaScript accepts as an array length (`new Array(n)` throws a RangeError otherwise). */
  predicate IsArrayLength(n: real)
  {
    0.0 <= n < 4294967296.0 && n.Floor as real == n
  }

  /** `n` zeroes: the holes a length-only `new Vector(n)` starts with. */
  function Zeros(n: nat): (r: seq<real>)
    ensures |r| == n && forall i :: 0 <= i < n ==> r[i] == 0.0
  {
    seq(n, _ => 0.0)
  }

  /** What `add` computes: the component-wise sum over the receiver's length. */
  function Sum(a: seq<real>, b: seq<real>): (r: seq<real>)
    requires |b| >= |a|
    ensures |r| == |a|
    ensures forall i :: 0 <= i < |a| ==> r[i] == a[i] + b[i]
  {
    seq(|a|, i requires 0 <= i < |a| => a[i] + b[i])
  }

  /** Adding a zero vector changes nothing, and addition of equal-length vectors commutes. */
  lemma SumProperties(a: seq<real>, b: seq<real>)
    requires |a| == |b|
    ensures Sum(a, Zeros(|a|)) == a
    ensures Sum(a, b) == Sum(b, a)
  {
  }

  /** What `scale()` leaves in a vector of at least three slots: slots 0, 1 and 2 multiplied
    * by 100, and every later slot (such as the axis component in slot 3 of a rotation) as it
    * was. */
  function Scaled(s: seq<real>): (r: seq<real>)
    requires |s| >= 3
    ensures |r| == |s|
    ensures forall i :: 0 <= i < 3 ==> r[i] == SCALE * s[i]
    ensures forall i :: 3 <= i < |s| ==> r[i] == s[i]
  {
    s[0 := SCALE * s[0]][1 := SCALE * s[1]][2 := SCALE * s[2]]
  }

  class Vector {
    const data: array<real>

    /** The numbers the vector holds, slot by slot. */
    function Elements(): (r: seq<real>)
      reads this, data
      ensures |r| == data.Length
    {
      data[..]
    }

    /** `new Vector(...args)`: a single argument is a length (the slots start as holes,
      * read here as 0); any other number of arguments gives exactly those components. */
    constructor (args: seq<real>)
      requires |args| == 1 ==> IsArrayLength(args[0])
      ensures fresh(data)
      ensures |args| == 1 ==> Elements() == Zeros(args[0].Floor)
      ensures |args| != 1 ==> Elements() == args
    {
      if |args| == 1 {
        data := new real[args[0].Floor](_ => 0.0);
      } else {
        var a := new real[|args|];
        for i := 0 to |args|
          invariant forall k :: 0 <= k < i ==> a[k] == args[k]
        {
          a[i] := args[i];
        }
        data := a;
      }
    }

    /** Builds a vector holding `s` slot by slot with no special case for one slot: the
      * array `map` produces through the species constructor. */
    constructor OfElements(s: seq<real>)
      ensures fresh(data)
      ensures Elements() == s
    {
      data := new real[|s|](i => if 0 <= i < |s| then s[i] else 0.0);
    }

    /** `add(other)`: a new vector of the receiver's length holding the component-wise sum;
      * neither operand changes. */
    method Add(other: Vector) returns (r: Vector)
      requires other.data.Length >= data.Length
      ensures fresh(r) && fresh(r.data)
      ensures r.Elements() == Sum(Elements(), other.Elements())
      ensures Elements() == old(Elements()) && other.Elements() == old(other.Elements())
    {
      r := new Vector.OfElements(Sum(data[..], other.data[..]));
    }

    /** `scale()`: multiplies slots 0..2 by `SCALE` in place and returns the receiver itself. */
    method Scale() returns (r: Vector)
      requires data.Length >= 3
      modifies data
      ensures r == this
      ensures Elements() == Scaled(old(Elements()))
    {
      data[0] := SCALE * data[0];
      data[1] := SCALE * data[1];
      data[2] := SCALE * data[2];
      r := this;
    }

    /** The `x` getter: slot 0. */
    function X(): (r: real)
      reads this, data
      requires data.Length > 0
      ensures r == Elements()[0]
    {
      data[0]
    }

    /** The `y` getter: slot 1. */
    function Y(): (r: real)
      reads this, data
      requires data.Length > 1
      ensures r == Elements()[1]
    {
      data[1]
    }

    /** The `z` getter: slot 2. */
    function Z(): (r: real)
      reads this, data
      requires data.Length > 2
      ensures r == Elements()[2]
    {
      data[2]
    }

    /** The `x` setter: slot 0 takes the new value, every other slot keeps its own. */
    method SetX(v: real)
      requires data.Length > 0
      modifies data
      ensures Elements() == old(Elements())[0 := v]
      ensures X() == v
    {
      data[0] := v;
    }

    /** The `y` setter: slot 1 takes the new value, every other slot keeps its own. */
    method SetY(v: real)
      requires data.Length > 1
      modifies data
      ensures Elements() == old(Elements())[1 := v]
      ensures Y() == v
    {
      data[1] := v;
    }

    /** The `z` setter: slot 2 takes the new value, every other slot keeps its own. */
    method SetZ(v: real)
      requires data.Length > 2
      modifies data
      ensures Elements() == old(Elements())[2 := v]
      ensures Z() == v
    {
      data[2] := v;
    }
  }
}
