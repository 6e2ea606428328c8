// Row-major tensors and the shape operations the importer uses on them.
module Tensors {

  function Prod(shape: seq<nat>): nat
    decreases |shape|
  {
    if shape == [] then 1 else Prod(shape[..|shape| - 1]) * shape[|shape| - 1]
  }

  predicate InBounds(shape: seq<nat>, idx: seq<nat>) {
    |idx| == |shape| && forall i :: 0 <= i < |shape| ==> idx[i] < shape[i]
  }

  // Row-major position of a multi-index.
  function Ravel(shape: seq<nat>, idx: seq<nat>): nat
    requires |idx| == |shape|
    decreases |shape|
  {
    if shape == [] then 0
    else Ravel(shape[..|shape| - 1], idx[..|idx| - 1]) * shape[|shape| - 1] + idx[|idx| - 1]
  }

  function Unravel(shape: seq<nat>, k: nat): (idx: seq<nat>)
    ensures |idx| == |shape|
    decreases |shape|
  {
    if shape == [] then []
    else
      var d := shape[|shape| - 1];
      if d == 0 then Unravel(shape[..|shape| - 1], k) + [0]
      else Unravel(shape[..|shape| - 1], k / d) + [k % d]
  }

  lemma {:induction false} ProdSnoc(shape: seq<nat>, d: nat)
    ensures Prod(shape + [d]) == Prod(shape) * d
  {
    assert (shape + [d])[..|shape|] == shape;
  }

  lemma {:induction false} RavelSnoc(shape: seq<nat>, d: nat, idx: seq<nat>, i: nat)
    requires |idx| == |shape|
    ensures Ravel(shape + [d], idx + [i]) == Ravel(shape, idx) * d + i
  {
    assert (shape + [d])[..|shape|] == shape && (idx + [i])[..|idx|] == idx;
  }

  lemma MulMono(a: nat, b: nat, d: nat)
    requires a <= b
    ensures a * d <= b * d
  {
  }

  lemma MulAddBound(a: nat, n: nat, d: nat, i: nat)
    requires a < n && i < d
    ensures a * d + i < n * d
  {
    MulMono(a + 1, n, d);
  }

  lemma {:induction false} RavelInRange(shape: seq<nat>, idx: seq<nat>)
    requires InBounds(shape, idx)
    ensures Ravel(shape, idx) < Prod(shape)
    decreases |shape|
  {
    if shape != [] {
      var n := |shape| - 1;
      RavelInRange(shape[..n], idx[..n]);
      MulAddBound(Ravel(shape[..n], idx[..n]), Prod(shape[..n]), shape[n], idx[n]);
    }
  }

  lemma DivUnique(k: nat, d: nat, q: nat, r: nat)
    requires d > 0 && k == q * d + r && r < d
    ensures k / d == q && k % d == r
  {
    var q', r' := k / d, k % d;
    if q' < q {
      MulAddBound(q', q, d, r');
    } else if q < q' {
      MulAddBound(q, q', d, r);
    }
  }

  lemma {:induction false} UnravelSnoc(shape: seq<nat>, d: nat, k: nat, i: nat, next: nat)
    requires i < d && next == k * d + i
    ensures Unravel(shape + [d], next) == Unravel(shape, k) + [i]
  {
    DivUnique(next, d, k, i);
    assert (shape + [d])[..|shape|] == shape;
  }

  // The two numberings of the entries agree.
  lemma {:induction false} UnravelRavel(shape: seq<nat>, idx: seq<nat>)
    requires InBounds(shape, idx)
    ensures Unravel(shape, Ravel(shape, idx)) == idx
    decreases |shape|
  {
    if shape != [] {
      var n := |shape| - 1;
      UnravelRavel(shape[..n], idx[..n]);
      assert shape == shape[..n] + [shape[n]] && idx == idx[..n] + [idx[n]];
      UnravelSnoc(shape[..n], shape[n], Ravel(shape[..n], idx[..n]), idx[n], Ravel(shape, idx));
    }
  }

  lemma QuotientBound(k: nat, n: nat, d: nat)
    requires k < n * d && d > 0
    ensures k / d < n
  {
    if n <= k / d {
      MulMono(n, k / d, d);
    }
  }

  lemma DivideBack(k: nat, n: nat, d: nat) returns (q: nat, i: nat)
    requires k < n * d
    ensures d > 0 && q < n && i < d && k == q * d + i
  {
    q, i := k / d, k % d;
    QuotientBound(k, n, d);
  }

  lemma {:induction false} RavelUnravel(shape: seq<nat>, k: nat)
    requires k < Prod(shape)
    ensures InBounds(shape, Unravel(shape, k)) && Ravel(shape, Unravel(shape, k)) == k
    decreases |shape|
  {
    if shape != [] {
      var n := |shape| - 1;
      var d := shape[n];
      var q, i := DivideBack(k, Prod(shape[..n]), d);
      RavelUnravel(shape[..n], q);
      assert shape == shape[..n] + [d];
      UnravelSnoc(shape[..n], d, q, i, k);
      RavelSnoc(shape[..n], d, Unravel(shape[..n], q), i);
    }
  }

  datatype Tensor<T> = Tensor(shape: seq<nat>, data: seq<T>) {
    predicate Valid() {
      |data| == Prod(shape)
    }

    function At(idx: seq<nat>): T
      requires Valid() && InBounds(shape, idx)
    {
      RavelInRange(shape, idx);
      data[Ravel(shape, idx)]
    }
  }

  // The tensor with entry f(idx) at every index.
  function Tabulate<T>(shape: seq<nat>, f: seq<nat> --> T): (t: Tensor<T>)
    requires forall idx :: InBounds(shape, idx) ==> f.requires(idx)
    ensures t.Valid() && t.shape == shape
  {
    Tensor(shape, seq(Prod(shape), k requires 0 <= k < Prod(shape) => RavelUnravel(shape, k); f(Unravel(shape, k))))
  }

  lemma TabulateAt<T>(shape: seq<nat>, f: seq<nat> --> T, idx: seq<nat>)
    requires forall i :: InBounds(shape, i) ==> f.requires(i)
    requires InBounds(shape, idx)
    ensures Tabulate(shape, f).At(idx) == f(idx)
  {
    RavelInRange(shape, idx);
    UnravelRavel(shape, idx);
  }

  lemma SameTensor<T>(a: Tensor<T>, b: Tensor<T>)
    requires a.Valid() && b.Valid() && a.shape == b.shape
    requires forall idx :: InBounds(a.shape, idx) ==> a.At(idx) == b.At(idx)
    ensures a == b
  {
    forall k | 0 <= k < |a.data| ensures a.data[k] == b.data[k] {
      RavelUnravel(a.shape, k);
      assert a.At(Unravel(a.shape, k)) == b.At(Unravel(a.shape, k));
    }
  }

  // ---------- operations ----------

  function Map<T, U>(t: Tensor<T>, f: T -> U): (r: Tensor<U>)
    requires t.Valid()
    ensures r.Valid() && r.shape == t.shape
  {
    Tensor(t.shape, seq(|t.data|, k requires 0 <= k < |t.data| => f(t.data[k])))
  }

  lemma MapAt<T, U>(t: Tensor<T>, f: T -> U, idx: seq<nat>)
    requires t.Valid() && InBounds(t.shape, idx)
    ensures Map(t, f).At(idx) == f(t.At(idx))
  {
    RavelInRange(t.shape, idx);
  }

  function Reshape<T>(t: Tensor<T>, shape: seq<nat>): (r: Tensor<T>)
    requires t.Valid() && Prod(shape) == Prod(t.shape)
    ensures r.Valid() && r.shape == shape
  {
    Tensor(shape, t.data)
  }

  lemma {:induction false} ReshapeAt<T>(t: Tensor<T>, shape: seq<nat>, idx: seq<nat>, was: seq<nat>)
    requires t.Valid() && Prod(shape) == Prod(t.shape) && InBounds(shape, idx) && InBounds(t.shape, was)
    requires Ravel(shape, idx) == Ravel(t.shape, was)
    ensures Reshape(t, shape).At(idx) == t.At(was)
  {
    RavelInRange(shape, idx);
  }

  // How far each axis grows: high[k] on axis axes[k], nothing elsewhere.
  function HighPads(rank: nat, axes: seq<nat>, high: seq<nat>): (h: seq<nat>)
    requires |axes| == |high|
    ensures |h| == rank
    decreases |axes|
  {
    if axes == [] then seq(rank, _ => 0)
    else
      var rest := HighPads(rank, axes[1..], high[1..]);
      if axes[0] < rank then rest[axes[0] := high[0]] else rest
  }

  function AddShapes(a: seq<nat>, b: seq<nat>): (s: seq<nat>)
    requires |a| == |b|
    ensures |s| == |a|
  {
    seq(|a|, i requires 0 <= i < |a| => a[i] + b[i])
  }

  // Pads with zero after the entries of the given axes.
  function PadConstant<T>(t: Tensor<T>, axes: seq<nat>, high: seq<nat>, zero: T): (r: Tensor<T>)
    requires t.Valid() && |axes| == |high|
    ensures r.Valid() && r.shape == AddShapes(t.shape, HighPads(|t.shape|, axes, high))
  {
    Tabulate(AddShapes(t.shape, HighPads(|t.shape|, axes, high)),
             idx => if InBounds(t.shape, idx) then t.At(idx) else zero)
  }

  lemma {:induction false} PadConstantAt<T>(t: Tensor<T>, axes: seq<nat>, high: seq<nat>, zero: T, shape: seq<nat>, idx: seq<nat>)
    requires t.Valid() && |axes| == |high| && shape == AddShapes(t.shape, HighPads(|t.shape|, axes, high))
    requires InBounds(t.shape, idx) && InBounds(shape, idx)
    ensures PadConstant(t, axes, high, zero).At(idx) == t.At(idx)
  {
    TabulateAt(shape, i => if InBounds(t.shape, i) then t.At(i) else zero, idx);
  }

  function ExpandDims<T>(t: Tensor<T>, axis: nat): (r: Tensor<T>)
    requires t.Valid() && axis <= |t.shape|
    ensures r.Valid() && r.shape == t.shape[..axis] + [1] + t.shape[axis..]
  {
    ProdInsertOne(t.shape[..axis], t.shape[axis..]);
    assert t.shape == t.shape[..axis] + t.shape[axis..];
    Tensor(t.shape[..axis] + [1] + t.shape[axis..], t.data)
  }

  lemma {:induction false} ProdInsertOne(a: seq<nat>, b: seq<nat>)
    ensures Prod(a + [1] + b) == Prod(a + b)
    decreases |b|
  {
    if b == [] {
      assert a + [1] + b == a + [1] && a + b == a;
      ProdSnoc(a, 1);
    } else {
      var n := |b| - 1;
      ProdInsertOne(a, b[..n]);
      assert (a + [1] + b)[..|a| + 1 + n] == a + [1] + b[..n];
      assert (a + b)[..|a| + n] == a + b[..n];
    }
  }

  predicate Broadcasts(a: seq<nat>, b: seq<nat>) {
    |a| == |b| && forall i :: 0 <= i < |a| ==> a[i] == b[i] || a[i] == 1 || b[i] == 1
  }

  function BroadcastShape(a: seq<nat>, b: seq<nat>): (s: seq<nat>)
    requires Broadcasts(a, b)
    ensures |s| == |a|
  {
    seq(|a|, i requires 0 <= i < |a| => if a[i] == 1 then b[i] else a[i])
  }

  // The entry a broadcast operand contributes: its only one along axes of length one.
  function Clamp(shape: seq<nat>, idx: seq<nat>): (c: seq<nat>)
    requires |shape| == |idx|
    ensures |c| == |shape|
  {
    seq(|shape|, i requires 0 <= i < |shape| => if shape[i] == 1 then 0 else idx[i])
  }

  function Mul<A, B, C>(a: Tensor<A>, b: Tensor<B>, f: (A, B) -> C): (r: Tensor<C>)
    requires a.Valid() && b.Valid() && Broadcasts(a.shape, b.shape)
    ensures r.Valid() && r.shape == BroadcastShape(a.shape, b.shape)
  {
    var shape := BroadcastShape(a.shape, b.shape);
    Tabulate(shape, idx requires InBounds(shape, idx) => f(a.At(Clamp(a.shape, idx)), b.At(Clamp(b.shape, idx))))
  }

  function SliceStartStop<T>(t: Tensor<T>, starts: seq<nat>, stops: seq<nat>): (r: Tensor<T>)
    requires t.Valid() && |starts| == |stops| == |t.shape|
    requires forall i :: 0 <= i < |stops| ==> starts[i] <= stops[i] <= t.shape[i]
    ensures r.Valid() && r.shape == seq(|stops|, i requires 0 <= i < |stops| => stops[i] - starts[i])
  {
    var shape := seq(|stops|, i requires 0 <= i < |stops| => stops[i] - starts[i]);
    Tabulate(shape, idx requires InBounds(shape, idx) => t.At(AddShapes(starts, idx)))
  }

  lemma MulAt<A, B, C>(a: Tensor<A>, b: Tensor<B>, f: (A, B) -> C, idx: seq<nat>)
    requires a.Valid() && b.Valid() && Broadcasts(a.shape, b.shape)
    requires InBounds(BroadcastShape(a.shape, b.shape), idx)
    ensures InBounds(a.shape, Clamp(a.shape, idx)) && InBounds(b.shape, Clamp(b.shape, idx))
    ensures Mul(a, b, f).At(idx) == f(a.At(Clamp(a.shape, idx)), b.At(Clamp(b.shape, idx)))
  {
    var shape := BroadcastShape(a.shape, b.shape);
    TabulateAt(shape, i requires InBounds(shape, i) => f(a.At(Clamp(a.shape, i)), b.At(Clamp(b.shape, i))), idx);
  }

  // A slice that starts at zero keeps its entries.
  lemma SliceFromZeroAt<T>(t: Tensor<T>, stops: seq<nat>, idx: seq<nat>)
    requires t.Valid() && |stops| == |t.shape| && InBounds(stops, idx)
    requires forall i :: 0 <= i < |stops| ==> stops[i] <= t.shape[i]
    ensures var zeros := seq(|stops|, _ => 0);
      var r := SliceStartStop(t, zeros, stops);
      r.shape == stops && InBounds(t.shape, idx) && r.At(idx) == t.At(idx)
  {
    var zeros: seq<nat> := seq(|stops|, _ => 0);
    var shape := seq(|stops|, i requires 0 <= i < |stops| => stops[i] - zeros[i]);
    assert shape == stops;
    TabulateAt(shape, i requires InBounds(shape, i) => t.At(AddShapes(zeros, i)), idx);
    assert AddShapes(zeros, idx) == idx;
  }
}
