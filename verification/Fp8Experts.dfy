// Stacking per-expert tensors byte by byte, and decoding the stack at once.
module Fp8Experts {
  import opened Text
  import opened Tensors
  import opened Fp8Decode

  // ---------- stacking ----------

  // A tensor as a safetensors file holds it.
  datatype TensorData<T> = TensorData(name: string, dtype: string, tensor: Tensor<T>)

  function Joined<T>(parts: seq<TensorData<T>>): seq<T> {
    if parts == [] then [] else parts[0].tensor.data + Joined(parts[1..])
  }

  // Concatenates the parts in the given order; all must have the first one's element type.
  method StackExpertTensors<T>(name: string, dtype: string, shape: seq<nat>, sources: seq<TensorData<T>>)
    returns (r: Result<TensorData<T>, string>)
    ensures r.Ok? <==> sources != [] && forall i :: 0 <= i < |sources| ==> sources[i].dtype == sources[0].dtype
    ensures r.Ok? ==> r.value == TensorData(name, dtype, Tensor(shape, Joined(sources)))
  {
    if |sources| == 0 {
      return Err("stack_experts expects at least one source");
    }
    var buf: seq<T> := [];
    assert buf + Joined(sources) == Joined(sources);
    for i := 0 to |sources|
      invariant forall k :: 0 <= k < i ==> sources[k].dtype == sources[0].dtype
      invariant buf + Joined(sources[i..]) == Joined(sources)
    {
      if sources[i].dtype != sources[0].dtype {
        return Err("stack_experts source dtype mismatch");
      }
      assert sources[i..][1..] == sources[i + 1..];
      Assoc(buf, sources[i].tensor.data, Joined(sources[i + 1..]));
      buf := buf + sources[i].tensor.data;
    }
    assert sources[|sources|..] == [] && buf + [] == buf;
    return Ok(TensorData(name, dtype, Tensor(shape, buf)));
  }

  // ---------- slots ----------

  lemma {:induction false} RavelFront(shape: seq<nat>, idx: seq<nat>, d: nat, e: nat)
    requires |idx| == |shape|
    ensures Prod([d] + shape) == d * Prod(shape)
    ensures Ravel([d] + shape, [e] + idx) == e * Prod(shape) + Ravel(shape, idx)
    decreases |shape|
  {
    var all, at := [d] + shape, [e] + idx;
    if shape == [] {
      assert all == [] + [d] && at == [] + [e];
      ProdSnoc([], d);
      RavelSnoc([], d, [], e);
    } else {
      var n := |shape| - 1;
      var s, i := shape[..n], idx[..n];
      assert all == ([d] + s) + [shape[n]] && at == ([e] + i) + [idx[n]];
      assert shape == s + [shape[n]] && idx == i + [idx[n]];
      RavelFront(s, i, d, e);
      ProdSnoc([d] + s, shape[n]);
      ProdSnoc(s, shape[n]);
      RavelSnoc([d] + s, shape[n], [e] + i, idx[n]);
      RavelSnoc(s, shape[n], i, idx[n]);
      Distribute(d, Prod(s), shape[n]);
      DistributePlus(e, Prod(s), Ravel(s, i), shape[n]);
    }
  }

  lemma Distribute(d: nat, p: nat, x: nat)
    ensures d * p * x == d * (p * x)
  {
  }

  lemma DistributePlus(e: nat, p: nat, r: nat, x: nat)
    ensures (e * p + r) * x == e * (p * x) + r * x
  {
    Distribute(e, p, x);
  }

  predicate AllShaped<T>(parts: seq<TensorData<T>>, shape: seq<nat>) {
    forall e :: 0 <= e < |parts| ==> parts[e].tensor.Valid() && parts[e].tensor.shape == shape
  }

  lemma {:induction false} JoinedSlot<T>(parts: seq<TensorData<T>>, shape: seq<nat>, e: nat)
    requires AllShaped(parts, shape) && e < |parts|
    ensures |Joined(parts)| == |parts| * Prod(shape)
    ensures e * Prod(shape) + Prod(shape) <= |Joined(parts)|
    ensures Joined(parts)[e * Prod(shape)..e * Prod(shape) + Prod(shape)] == parts[e].tensor.data
  {
    JoinedLength(parts, Prod(shape));
    JoinedPart(parts, Prod(shape), e, e * Prod(shape));
  }

  // at is the place where part e begins when every part has n elements.
  predicate Begins(e: nat, n: nat, at: nat) {
    at == e * n
  }

  lemma BeginsEarlier(e: nat, n: nat, at: nat)
    requires e > 0 && Begins(e, n, at)
    ensures at >= n && Begins(e - 1, n, at - n)
  {
    StepTimes(e - 1, n);
  }

  predicate AllSized<T>(parts: seq<TensorData<T>>, n: nat) {
    forall e :: 0 <= e < |parts| ==> |parts[e].tensor.data| == n
  }

  lemma {:induction false} JoinedLength<T>(parts: seq<TensorData<T>>, n: nat)
    requires AllSized(parts, n)
    ensures |Joined(parts)| == |parts| * n
    decreases |parts|
  {
    if parts != [] {
      JoinedLength(parts[1..], n);
      StepTimes(|parts| - 1, n);
    }
  }

  lemma {:induction false} JoinedPart<T>(parts: seq<TensorData<T>>, n: nat, e: nat, at: nat)
    requires AllSized(parts, n) && e < |parts| && Begins(e, n, at)
    ensures at + n <= |Joined(parts)| && Joined(parts)[at..at + n] == parts[e].tensor.data
    decreases |parts|
  {
    var head, rest := parts[0].tensor.data, parts[1..];
    if e > 0 {
      BeginsEarlier(e, n, at);
      JoinedPart(rest, n, e - 1, at - n);
      SliceTail(head, Joined(rest), at - n, n);
    } else {
      assert (head + Joined(rest))[..n] == head;
    }
  }

  lemma SliceTail<T>(head: seq<T>, tail: seq<T>, at: nat, n: nat)
    requires at + n <= |tail|
    ensures (head + tail)[|head| + at..|head| + at + n] == tail[at..at + n]
  {
  }

  lemma StepTimes(k: nat, n: nat)
    ensures (k + 1) * n == n + k * n
  {
  }

  lemma {:induction false} SlotRange(shape: seq<nat>, e: nat)
    requires shape != [] && e < shape[0]
    ensures e * Prod(shape[1..]) + Prod(shape[1..]) <= Prod(shape)
  {
    var d, rest := shape[0], shape[1..];
    assert shape == [d] + rest;
    RavelFront(rest, rest, d, 0);
    MulMono(e + 1, d, Prod(rest));
    StepTimes(e, Prod(rest));
  }

  lemma {:induction false} RavelCons(shape: seq<nat>, e: nat, idx: seq<nat>)
    requires shape != [] && |idx| == |shape| - 1
    ensures Ravel(shape, [e] + idx) == e * Prod(shape[1..]) + Ravel(shape[1..], idx)
  {
    assert shape == [shape[0]] + shape[1..];
    RavelFront(shape[1..], idx, shape[0], e);
  }

  // One expert's share of a stack.
  function Slot<T>(t: Tensor<T>, e: nat): (s: Tensor<T>)
    requires t.Valid() && t.shape != [] && e < t.shape[0]
    ensures s.Valid() && s.shape == t.shape[1..]
  {
    SlotRange(t.shape, e);
    var from := e * Prod(t.shape[1..]);
    Tensor(t.shape[1..], t.data[from..from + Prod(t.shape[1..])])
  }

  lemma SliceAt<T>(data: seq<T>, from: nat, n: nat, k: nat)
    requires from + n <= |data| && k < n
    ensures data[from..from + n][k] == data[from + k]
  {
  }

  lemma SlotAt<T>(t: Tensor<T>, e: nat, idx: seq<nat>)
    requires t.Valid() && t.shape != [] && e < t.shape[0] && InBounds(t.shape[1..], idx)
    ensures InBounds(t.shape, [e] + idx) && Slot(t, e).At(idx) == t.At([e] + idx)
  {
    var rest := t.shape[1..];
    var from := e * Prod(rest);
    SlotRange(t.shape, e);
    RavelCons(t.shape, e, idx);
    RavelInRange(rest, idx);
    SliceAt(t.data, from, Prod(rest), Ravel(rest, idx));
  }

  function Stack<T>(parts: seq<TensorData<T>>, shape: seq<nat>): Tensor<T> {
    Tensor([|parts|] + shape, Joined(parts))
  }

  // Slot e of a stack is expert e, element for element.
  lemma StackSlot<T>(parts: seq<TensorData<T>>, shape: seq<nat>, e: nat)
    requires AllShaped(parts, shape) && e < |parts|
    ensures Stack(parts, shape).Valid() && Slot(Stack(parts, shape), e) == parts[e].tensor
  {
    JoinedSlot(parts, shape, e);
    RavelFront(shape, shape, |parts|, 0);
    assert ([|parts|] + shape)[1..] == shape;
  }

  // ---------- decoding a stack ----------

  // Stacking adds an axis: experts with three axes decode only alone, and a single expert with
  // one axis only stacked.
  predicate StackingDecides(shape: seq<nat>, scaleShape: seq<nat>, n: nat) {
    || (|shape| == 3 && ScaleFits(shape, scaleShape))
    || (|shape| == 1 && |scaleShape| == 1 && n == 1 && scaleShape[0] == Blocks(shape[0]))
  }

  lemma StackFits(shape: seq<nat>, scaleShape: seq<nat>, n: nat)
    requires n > 0
    ensures (ScaleFits([n] + shape, [n] + scaleShape) <==> ScaleFits(shape, scaleShape)) <==> !StackingDecides(shape, scaleShape, n)
    ensures ScaleFits([n] + shape, [n] + scaleShape) && ScaleFits(shape, scaleShape) ==> |shape| == |scaleShape| == 2
  {
    var w, s := [n] + shape, [n] + scaleShape;
    assert Blocks(n) == n <==> n == 1;
    assert |shape| == 1 ==> w == [n, shape[0]];
    assert |scaleShape| == 1 ==> s == [n, scaleShape[0]];
    assert |shape| == 2 ==> w == [n, shape[0], shape[1]];
    assert |scaleShape| == 2 ==> s == [n, scaleShape[0], scaleShape[1]];
  }

  // Decoding a stack gives in slot e what decoding that weight with that scale gives, and fails
  // where that fails.
  ghost predicate SlotDecodes<W, S, P, V>(weights: Tensor<W>, scales: Tensor<S>, weight: Tensor<W>, scale: Tensor<S>,
                                          ops: Arithmetic<W, S, P, V>, e: nat)
  {
    && weights.Valid() && scales.Valid() && weight.Valid() && scale.Valid()
    && weights.shape != [] && e < weights.shape[0]
    && var all, one := DecodeSourceFP8(weights, scales, ops), DecodeSourceFP8(weight, scale, ops);
       (all.Ok? <==> one.Ok?) && (all.Ok? ==> Slot(all.value, e) == one.value)
  }

  // Stacking N weights and their N scales and decoding once does, in slot e, exactly what
  // decoding expert e's weight with expert e's own scale does, but for the shapes above.
  lemma StackThenDecode<W, S, P, V>(weights: seq<TensorData<W>>, scales: seq<TensorData<S>>,
                                    shape: seq<nat>, scaleShape: seq<nat>, ops: Arithmetic<W, S, P, V>, e: nat)
    requires |weights| == |scales| && e < |weights|
    requires AllShaped(weights, shape) && AllShaped(scales, scaleShape)
    ensures SlotDecodes(Stack(weights, shape), Stack(scales, scaleShape), weights[e].tensor, scales[e].tensor, ops, e)
        <==> !StackingDecides(shape, scaleShape, |weights|)
  {
    var w, s := Stack(weights, shape), Stack(scales, scaleShape);
    StackSlot(weights, shape, e);
    StackSlot(scales, scaleShape, e);
    DecodeSucceedsIff(w, s, ops);
    DecodeSucceedsIff(weights[e].tensor, scales[e].tensor, ops);
    StackFits(shape, scaleShape, |weights|);
    if DecodeSourceFP8(w, s, ops).Ok? && DecodeSourceFP8(weights[e].tensor, scales[e].tensor, ops).Ok? {
      assert shape == [shape[0], shape[1]] && scaleShape == [Blocks(shape[0]), Blocks(shape[1])];
      SlotOfDecoded(weights, scales, shape[0], shape[1], ops, e);
    }
  }

  // Matrices whose scales fit.
  lemma SlotOfDecoded<W, S, P, V>(weights: seq<TensorData<W>>, scales: seq<TensorData<S>>, rows: nat, cols: nat,
                                  ops: Arithmetic<W, S, P, V>, e: nat)
    requires |weights| == |scales| && e < |weights|
    requires AllShaped(weights, [rows, cols]) && AllShaped(scales, [Blocks(rows), Blocks(cols)])
    requires var w, s := Stack(weights, [rows, cols]), Stack(scales, [Blocks(rows), Blocks(cols)]);
      w.Valid() && s.Valid() && DecodeSourceFP8(w, s, ops).Ok? && DecodeSourceFP8(weights[e].tensor, scales[e].tensor, ops).Ok?
    ensures Slot(DecodeSourceFP8(Stack(weights, [rows, cols]), Stack(scales, [Blocks(rows), Blocks(cols)]), ops).value, e)
      == DecodeSourceFP8(weights[e].tensor, scales[e].tensor, ops).value
  {
    var all := DecodeSourceFP8(Stack(weights, [rows, cols]), Stack(scales, [Blocks(rows), Blocks(cols)]), ops).value;
    var one := DecodeSourceFP8(weights[e].tensor, scales[e].tensor, ops).value;
    forall idx | InBounds([rows, cols], idx) ensures Slot(all, e).At(idx) == one.At(idx) {
      SameEntry(weights, scales, rows, cols, ops, e, idx[0], idx[1]);
      assert idx == [idx[0], idx[1]];
    }
    SameTensor(Slot(all, e), one);
  }

  // The formula every decoded entry obeys, for one weight ...
  lemma DecodedEntry<W, S, P, V>(w: Tensor<W>, s: Tensor<S>, rows: nat, cols: nat, ops: Arithmetic<W, S, P, V>, i: nat, j: nat)
    requires Shaped(w, [], rows, cols) && Shaped(s, [], Blocks(rows), Blocks(cols)) && i < rows && j < cols
    ensures InBounds(w.shape, [i, j]) && InBounds(s.shape, [i / BLOCK, j / BLOCK])
    ensures var r := DecodeSourceFP8(w, s, ops);
      r.Ok? && r.value.At([i, j]) == ops.asType(ops.mul(ops.fromFP8(w.At([i, j])), s.At([i / BLOCK, j / BLOCK])))
  {
    DecodePointwise(w, s, ops, [], rows, cols, [], i, j);
    assert [] + [i, j] == [i, j] && [] + [i / BLOCK, j / BLOCK] == [i / BLOCK, j / BLOCK];
  }

  // ... and for slot e of a stack.
  lemma DecodedSlotEntry<W, S, P, V>(w: Tensor<W>, s: Tensor<S>, n: nat, rows: nat, cols: nat,
                                     ops: Arithmetic<W, S, P, V>, e: nat, i: nat, j: nat)
    requires Shaped(w, [n], rows, cols) && Shaped(s, [n], Blocks(rows), Blocks(cols))
    requires e < n && i < rows && j < cols
    ensures InBounds(w.shape[1..], [i, j]) && InBounds(s.shape[1..], [i / BLOCK, j / BLOCK])
    ensures var r := DecodeSourceFP8(w, s, ops);
      r.Ok? && Slot(r.value, e).At([i, j])
        == ops.asType(ops.mul(ops.fromFP8(Slot(w, e).At([i, j])), Slot(s, e).At([i / BLOCK, j / BLOCK])))
  {
    DecodePointwise(w, s, ops, [n], rows, cols, [e], i, j);
    BlockOf(rows, i);
    BlockOf(cols, j);
    assert w.shape[1..] == [rows, cols] && s.shape[1..] == [Blocks(rows), Blocks(cols)];
    SlotAt(w, e, [i, j]);
    SlotAt(s, e, [i / BLOCK, j / BLOCK]);
    SlotAt(DecodeSourceFP8(w, s, ops).value, e, [i, j]);
  }

  lemma SameEntry<W, S, P, V>(weights: seq<TensorData<W>>, scales: seq<TensorData<S>>, rows: nat, cols: nat,
                              ops: Arithmetic<W, S, P, V>, e: nat, i: nat, j: nat)
    requires |weights| == |scales| && e < |weights| && i < rows && j < cols
    requires AllShaped(weights, [rows, cols]) && AllShaped(scales, [Blocks(rows), Blocks(cols)])
    ensures var w, s := Stack(weights, [rows, cols]), Stack(scales, [Blocks(rows), Blocks(cols)]);
      && w.Valid() && s.Valid() && DecodeSourceFP8(w, s, ops).Ok?
      && DecodeSourceFP8(weights[e].tensor, scales[e].tensor, ops).Ok?
      && InBounds([rows, cols], [i, j])
      && Slot(DecodeSourceFP8(w, s, ops).value, e).At([i, j])
           == DecodeSourceFP8(weights[e].tensor, scales[e].tensor, ops).value.At([i, j])
  {
    var n, x, y := |weights|, Blocks(rows), Blocks(cols);
    StackSlot(weights, [rows, cols], e);
    StackSlot(scales, [x, y], e);
    assert [n] + [rows, cols] == [n] + [rows] + [cols];
    DecodedSlotEntry(Stack(weights, [rows, cols]), Stack(scales, [x, y]), n, rows, cols, ops, e, i, j);
    assert [] + [rows, cols] == [rows, cols] && [] + [x, y] == [x, y];
    DecodedEntry(weights[e].tensor, scales[e].tensor, rows, cols, ops, i, j);
  }
}
