/** The tensor container the layer works on: a shape and two planes of
    equal length, the values ("data") and the gradients ("diff").
    Only what the layer relies on is modelled: the element count of a
    shape, the count from an axis on, and reshaping. */
module Blobs {

  /** Number of elements of a tensor of the given shape (the empty shape is
      a scalar and holds one element). */
  function Count(shape: seq<nat>): nat
  {
    if shape == [] then 1 else shape[0] * Count(shape[1..])
  }

  /** Number of elements from axis `axis` on: `count(axis)`. */
  function CountFrom(shape: seq<nat>, axis: nat): nat
    requires axis <= |shape|
  {
    Count(shape[axis..])
  }

  /** A shape with at least the axes (num, channels) splits its count into
      num * channels * (the count of the remaining axes). */
  lemma CountSplit(shape: seq<nat>)
    requires |shape| >= 2
    ensures Count(shape) == shape[0] * CountFrom(shape, 1)
    ensures CountFrom(shape, 1) == shape[1] * CountFrom(shape, 2)
  {
    assert shape[1..][1..] == shape[2..];
  }

  /** The element count of the axes after the channel axis, `count(2)`:
      the number of elements per channel of one sample. In a non-empty
      tensor both it and the channel count are positive. */
  function InnerDim(shape: seq<nat>): (d: nat)
    requires |shape| >= 2
    ensures Count(shape) > 0 ==> d > 0 && shape[1] > 0
  {
    CountSplit(shape);
    CountFrom(shape, 2)
  }

  class Blob {
    var shape: seq<nat>
    var data: array<real>
    var diff: array<real>

    /** Both planes hold exactly Count(shape) elements and are distinct arrays. */
    ghost predicate Valid()
      reads this
    {
      data.Length == Count(shape) && diff.Length == Count(shape) && data != diff
    }

    /** A blob of the given shape. Its values are not specified. */
    constructor (s: seq<nat>)
      ensures Valid() && shape == s && fresh(data) && fresh(diff)
    {
      shape := s;
      data := new real[Count(s)];
      diff := new real[Count(s)];
    }

    /** A default-constructed blob: it holds no elements. */
    constructor Empty()
      ensures Valid() && Count(shape) == 0 && fresh(data) && fresh(diff)
    {
      shape := [0];
      data := new real[0];
      diff := new real[0];
    }

    /** Gives the blob a new shape. Storage is kept when the element count
        does not change, and replaced by fresh storage (with unspecified
        values) when it does. */
    method Reshape(s: seq<nat>)
      requires Valid()
      modifies this
      ensures Valid() && shape == s
      ensures old(data.Length) == Count(s) ==> data == old(data) && diff == old(diff)
      ensures old(data.Length) != Count(s) ==> fresh(data) && fresh(diff)
    {
      if data.Length != Count(s) {
        data := new real[Count(s)];
        diff := new real[Count(s)];
      }
      shape := s;
    }
  }
}
