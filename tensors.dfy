/**
 * Dense tensors as nested sequences, and `pad_max_instances`: the rule that
 * cuts or fills one axis of a tensor to a fixed number of instances.
 */
module Tensors {
  import opened Wrappers
  import opened Arith

  /** A tensor of rank r is a scalar (r = 0) or a stack of tensors of rank r - 1. */
  datatype Tensor<T> = Scalar(v: T) | Stack(items: seq<Tensor<T>>)

  /** `t` is rectangular and its dimensions are `s` (TensorFlow's `tf.shape`). */
  ghost predicate HasShape<T>(t: Tensor<T>, s: seq<nat>)
    decreases t
  {
    if s == [] then t.Scalar?
    else
      && t.Stack?
      && |t.items| == s[0]
      && forall i :: 0 <= i < |t.items| ==> HasShape(t.items[i], s[1..])
  }

  /** Every scalar of `t` is `x`. */
  ghost predicate AllEqual<T>(t: Tensor<T>, x: T)
    decreases t
  {
    match t
    case Scalar(v) => v == x
    case Stack(items) => forall i :: 0 <= i < |items| ==> AllEqual(items[i], x)
  }

  /** `tf.fill(s, x)`: the tensor of shape `s` whose every entry is `x`. */
  function Fill<T>(s: seq<nat>, x: T): (r: Tensor<T>)
    ensures HasShape(r, s)
    ensures AllEqual(r, x)
    decreases |s|
  {
    if s == [] then Scalar(x)
    else
      var row := Fill(s[1..], x);
      Stack(seq(s[0], _ => row))
  }

  /**
   * Axis 0 of the padding rule: keep the first `min(n, |xs|)` entries and
   * append `max(n - |xs|, 0)` copies of `fill`.
   */
  function PadSeq<T>(xs: seq<T>, n: nat, fill: T): (r: seq<T>)
    ensures |r| == n
    ensures forall i :: 0 <= i < n && i < |xs| ==> r[i] == xs[i]
    ensures forall i :: |xs| <= i < n ==> r[i] == fill
    ensures |xs| >= n ==> r == xs[..n]
  {
    var take := Min(n, |xs|);
    xs[..take] + seq(Max(n - |xs|, 0), _ => fill)
  }

  /** `PadSeq` is idempotent: a sequence already of length `n` is left alone. */
  lemma PadSeqIdempotent<T>(xs: seq<T>, n: nat, fill: T)
    ensures PadSeq(PadSeq(xs, n, fill), n, fill) == PadSeq(xs, n, fill)
  {
  }

  /**
   * Pads or truncates `t`, whose shape is `s`, to `n` entries along `axis`;
   * the padding entries are tensors filled with `fill`.
   */
  function PadAlong<T>(t: Tensor<T>, s: seq<nat>, axis: nat, n: nat, fill: T): (r: Tensor<T>)
    requires HasShape(t, s) && axis < |s|
    ensures HasShape(r, s[axis := n])
    decreases axis
  {
    if axis == 0 then
      var r := Stack(PadSeq(t.items, n, Fill(s[1..], fill)));
      assert s[0 := n][1..] == s[1..];
      r
    else
      var r := Stack(seq(|t.items|, i requires 0 <= i < |t.items| =>
                           PadAlong(t.items[i], s[1..], axis - 1, n, fill)));
      assert s[axis := n][1..] == s[1..][axis - 1 := n];
      r
  }

  /**
   * `r` is `t` cut or filled to `n` entries along its first axis: the first
   * entries are `t`'s own, in order, and every entry past `t`'s length holds
   * only `fill`.
   */
  ghost predicate PaddedTo<T>(r: Tensor<T>, t: Tensor<T>, n: nat, fill: T)
  {
    && r.Stack? && t.Stack? && |r.items| == n
    && (forall i :: 0 <= i < n && i < |t.items| ==> r.items[i] == t.items[i])
    && (forall i :: |t.items| <= i < n ==> AllEqual(r.items[i], fill))
  }

  /** Padding along axis 0 keeps the leading entries and fills the rest. */
  lemma PadAlongLeading<T>(t: Tensor<T>, s: seq<nat>, n: nat, fill: T)
    requires HasShape(t, s) && |s| >= 1
    ensures PaddedTo(PadAlong(t, s, 0, n, fill), t, n, fill)
    ensures |t.items| >= n ==> PadAlong(t, s, 0, n, fill).items == t.items[..n]
  {
  }

  /** A negative axis counts from the end: `rank + pad_axis`. */
  function NormaliseAxis(rank: nat, padAxis: int): (a: int)
    ensures padAxis >= 0 ==> a == padAxis
    ensures padAxis < 0 ==> a == rank + padAxis && a < rank
  {
    if padAxis < 0 then rank + padAxis else padAxis
  }

  /**
   * The axis `pad_max_instances` pads, or None when TensorFlow raises. After
   * `pad_axis = rank + pad_axis` the axis may still be negative: the index
   * `shape[pad_axis]`, `tf.split` and `tf.concat` all accept an axis in
   * `[-rank, -1]` and count it from the end a second time, and the slices
   * `shape[:pad_axis]` and `shape[pad_axis + 1:]` then still cut out that one
   * dimension, except at `-1`, where `shape[0:]` is the whole shape, the fill
   * tensor has rank `2 * rank` and `tf.concat` raises. Any other axis outside
   * `[0, rank)` makes `shape[pad_axis]` raise.
   */
  function PadAxis(rank: nat, padAxis: int): (r: Option<nat>)
    ensures var a := NormaliseAxis(rank, padAxis);
            && (r.Some? <==> 0 <= a < rank || (0 <= rank + a && a <= -2))
            && (r.Some? ==> r.value < rank)
            && (0 <= a < rank ==> r == Some(a))
            && (0 <= rank + a && a <= -2 ==> r == Some(rank + a))
  {
    var a := NormaliseAxis(rank, padAxis);
    if 0 <= a < rank then Some(a)
    else if 0 <= rank + a && a <= -2 then Some(rank + a)
    else None
  }

  /**
   * `pad_max_instances(value, instances, pad_value, pad_axis)` on a tensor of
   * shape `shape`: the input padded along `PadAxis`, or None where TensorFlow
   * raises.
   */
  function PadMaxInstances<T>(value: Tensor<T>, shape: seq<nat>, instances: nat, padValue: T, padAxis: int): (r: Option<Tensor<T>>)
    requires HasShape(value, shape)
    ensures r.Some? <==> PadAxis(|shape|, padAxis).Some?
    ensures r.Some? ==> HasShape(r.value, shape[PadAxis(|shape|, padAxis).value := instances])
  {
    var axis := PadAxis(|shape|, padAxis);
    if axis.Some? then Some(PadAlong(value, shape, axis.value, instances, padValue)) else None
  }

  /**
   * An axis that is still negative after one normalisation is counted from
   * the end again (`pad_axis = -5` on a rank-3 tensor pads axis 1), except
   * `-1`, which makes TensorFlow raise.
   */
  lemma TwiceNegativeAxis<T>(value: Tensor<T>, shape: seq<nat>, instances: nat, padValue: T, padAxis: int)
    requires HasShape(value, shape) && padAxis < 0
    requires -|shape| <= |shape| + padAxis < 0
    ensures var r := PadMaxInstances(value, shape, instances, padValue, padAxis);
            && (r.Some? <==> |shape| + padAxis != -1)
            && (r.Some? ==> r.value == PadAlong(value, shape, 2 * |shape| + padAxis, instances, padValue))
  {
  }

  /**
   * Along axis 0 the result keeps the input's first entries in order, fills
   * the rest with `pad_value`, and is a pure truncation when the input has at
   * least `instances` entries.
   */
  lemma PadMaxInstancesLeading<T>(value: Tensor<T>, shape: seq<nat>, instances: nat, padValue: T, padAxis: int)
    requires HasShape(value, shape) && |shape| >= 1
    requires NormaliseAxis(|shape|, padAxis) == 0
    ensures var r := PadMaxInstances(value, shape, instances, padValue, padAxis);
            && r.Some? && r.value.Stack? && |r.value.items| == instances
            && (forall i :: 0 <= i < instances && i < |value.items| ==> r.value.items[i] == value.items[i])
            && (forall i :: |value.items| <= i < instances ==> AllEqual(r.value.items[i], padValue))
            && (|value.items| >= instances ==> r.value.items == value.items[..instances])
  {
  }

  /**
   * Along axis 1 (`pad_axis = -1` on a matrix, `-2` on a rank-3 tensor) every
   * row is padded on its own, and the number of rows is unchanged.
   */
  lemma PadMaxInstancesPerRow<T>(value: Tensor<T>, shape: seq<nat>, instances: nat, padValue: T, padAxis: int)
    requires HasShape(value, shape) && |shape| >= 2
    requires NormaliseAxis(|shape|, padAxis) == 1
    ensures var r := PadMaxInstances(value, shape, instances, padValue, padAxis);
            && r.Some? && r.value.Stack? && |r.value.items| == |value.items|
            && forall i :: 0 <= i < |value.items| ==>
                 HasShape(value.items[i], shape[1..]) &&
                 r.value.items[i] == PadAlong(value.items[i], shape[1..], 0, instances, padValue)
  {
  }

  /** A matrix padded along its last axis (`pad_axis = -1`). */
  lemma {:induction false} PadLastAxisOfMatrix<T>(rows: seq<seq<T>>, width: nat, instances: nat, padValue: T)
    requires forall i :: 0 <= i < |rows| ==> |rows[i]| == width
    ensures var m := Stack(seq(|rows|, i requires 0 <= i < |rows| => Stack(seq(width, j requires 0 <= j < width => Scalar(rows[i][j])))));
            && HasShape(m, [|rows|, width])
            && PadMaxInstances(m, [|rows|, width], instances, padValue, -1)
               == Some(Stack(seq(|rows|, i requires 0 <= i < |rows| =>
                             Stack(PadSeq(seq(width, j requires 0 <= j < width => Scalar(rows[i][j])), instances, Scalar(padValue))))))
  {
    var m := Stack(seq(|rows|, i requires 0 <= i < |rows| => Stack(seq(width, j requires 0 <= j < width => Scalar(rows[i][j])))));
    var s: seq<nat> := [|rows|, width];
    assert HasShape(m, s) by {
      forall i | 0 <= i < |rows|
        ensures HasShape(m.items[i], s[1..])
      {
        assert s[1..] == [width];
        assert s[1..][1..] == [];
      }
    }
    assert NormaliseAxis(2, -1) == 1;
    var r := PadMaxInstances(m, s, instances, padValue, -1);
    assert r.Some?;
    var expected := seq(|rows|, i requires 0 <= i < |rows| =>
                          Stack(PadSeq(seq(width, j requires 0 <= j < width => Scalar(rows[i][j])), instances, Scalar(padValue))));
    forall i | 0 <= i < |rows|
      ensures r.value.items[i] == expected[i]
    {
      assert s[1..][1..] == [];
      assert m.items[i].items == seq(width, j requires 0 <= j < width => Scalar(rows[i][j]));
    }
    assert r.value.items == expected;
  }
}
