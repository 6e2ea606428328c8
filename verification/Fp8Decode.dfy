// Dequantizing block-FP8 weights: pad to whole 128x128 blocks, give every block its own axes,
// scale by broadcasting, and undo both. Element values and products are uninterpreted.
module Fp8Decode {
  import opened Text
  import opened Tensors

  const BLOCK: nat := 128

  // How elements are decoded, scaled and cast; zero pads.
  datatype Arithmetic<!W, !S, !P, !V> = Arithmetic(fromFP8: W -> V, mul: (V, S) -> P, asType: P -> V, zero: V)

  function Blocks(n: nat): nat {
    (n + BLOCK - 1) / BLOCK
  }

  lemma BlocksCover(n: nat)
    ensures n <= BLOCK * Blocks(n) < n + BLOCK
  {
  }

  // Where entry i of a padded axis lies: in block i / 128, at i % 128.
  lemma BlockOf(n: nat, i: nat)
    requires i < n
    ensures i / BLOCK < Blocks(n) && BLOCK * (i / BLOCK) + i % BLOCK == i
  {
  }

  // ---------- shapes ----------

  lemma Halves<T>(s: seq<T>, a: T, b: T, c: T, d: T)
    ensures s + [a, b] == s + [a] + [b]
    ensures s + [a, b, c, d] == (s + [a, b]) + [c, d]
  {
  }

  lemma {:induction false} TwoSizes(lead: seq<nat>, x: nat, y: nat, size: nat)
    requires Prod(lead) == size
    ensures Prod(lead + [x, y]) == size * x * y
  {
    Halves(lead, x, y, 0, 0);
    ProdSnoc(lead, x);
    ProdSnoc(lead + [x], y);
  }

  lemma {:induction false} FourSizes(lead: seq<nat>, x: nat, p: nat, y: nat, q: nat, size: nat)
    requires Prod(lead) == size
    ensures Prod(lead + [x, p, y, q]) == size * x * p * y * q
  {
    Halves(lead, x, p, y, q);
    TwoSizes(lead, x, p, size);
    TwoSizes(lead + [x, p], y, q, size * x * p);
  }

  // Horner's rule for one more axis.
  predicate Next(place: nat, d: nat, i: nat, next: nat) {
    next == place * d + i
  }

  lemma {:induction false} OnePlace(s: seq<nat>, idx: seq<nat>, d: nat, i: nat, place: nat, next: nat)
    requires |s| == |idx| && Ravel(s, idx) == place && Next(place, d, i, next)
    ensures Ravel(s + [d], idx + [i]) == next
  {
    RavelSnoc(s, d, idx, i);
  }

  lemma {:induction false} TwoPlaces(lead: seq<nat>, l: seq<nat>, x: nat, i: nat, y: nat, j: nat, n: nat, p1: nat, p2: nat)
    requires |l| == |lead| && Ravel(lead, l) == n && Next(n, x, i, p1) && Next(p1, y, j, p2)
    ensures Ravel(lead + [x, y], l + [i, j]) == p2
  {
    Halves(lead, x, y, 0, 0);
    Halves(l, i, j, 0, 0);
    OnePlace(lead, l, x, i, n, p1);
    OnePlace(lead + [x], l + [i], y, j, p1, p2);
  }

  lemma {:induction false} FourPlaces(lead: seq<nat>, l: seq<nat>, x: nat, a: nat, p: nat, b: nat, y: nat, c: nat, q: nat,
                                      d: nat, n: nat, p1: nat, p2: nat, p3: nat, p4: nat)
    requires |l| == |lead| && Ravel(lead, l) == n
    requires Next(n, x, a, p1) && Next(p1, p, b, p2) && Next(p2, y, c, p3) && Next(p3, q, d, p4)
    ensures Ravel(lead + [x, p, y, q], l + [a, b, c, d]) == p4
  {
    Halves(lead, x, p, y, q);
    Halves(l, a, b, c, d);
    TwoPlaces(lead, l, x, a, p, b, n, p1, p2);
    TwoPlaces(lead + [x, p], l + [a, b], y, c, q, d, p2, p3, p4);
  }

  lemma TimesBlock(u: nat, v: nat)
    ensures u * (BLOCK * v) == BLOCK * (u * v)
  {
  }

  // Splitting both axes into blocks keeps the number of elements ...
  lemma {:induction false} SplitSameSize(lead: seq<nat>, x: nat, y: nat)
    ensures Prod(lead + [x, BLOCK, y, BLOCK]) == Prod(lead + [BLOCK * x, BLOCK * y])
  {
    var size := Prod(lead);
    FourSizes(lead, x, BLOCK, y, BLOCK, size);
    TwoSizes(lead, BLOCK * x, BLOCK * y, size);
    SameSize(size, x, y);
  }

  lemma SameSize(size: nat, x: nat, y: nat)
    ensures size * x * BLOCK * y * BLOCK == size * (BLOCK * x) * (BLOCK * y)
  {
    TimesBlock(size, x);
    TimesBlock(size * (BLOCK * x), y);
  }

  // ... and their places.
  lemma {:induction false} SplitSamePlace(lead: seq<nat>, x: nat, y: nat, l: seq<nat>, a: nat, b: nat, c: nat, d: nat,
                                          i: nat, j: nat)
    requires |l| == |lead| && i == BLOCK * a + b && j == BLOCK * c + d
    ensures Ravel(lead + [x, BLOCK, y, BLOCK], l + [a, b, c, d]) == Ravel(lead + [BLOCK * x, BLOCK * y], l + [i, j])
  {
    var n := Ravel(lead, l);
    var block, row, col, place := Places(n, x, a, b, y, c, d);
    FourPlaces(lead, l, x, a, BLOCK, b, y, c, BLOCK, d, n, block, row, col, place);
    TwoPlaces(lead, l, BLOCK * x, i, BLOCK * y, j, n, row, place);
  }

  lemma Places(n: nat, x: nat, a: nat, b: nat, y: nat, c: nat, d: nat) returns (block: nat, row: nat, col: nat, place: nat)
    ensures Next(n, x, a, block) && Next(block, BLOCK, b, row) && Next(row, y, c, col) && Next(col, BLOCK, d, place)
    ensures Next(n, BLOCK * x, BLOCK * a + b, row) && Next(row, BLOCK * y, BLOCK * c + d, place)
  {
    block := n * x + a;
    row := block * BLOCK + b;
    col := row * y + c;
    place := col * BLOCK + d;
    TimesBlock(n, x);
    TimesBlock(row, y);
  }

  // ---------- the steps ----------

  predicate Shaped<T>(t: Tensor<T>, lead: seq<nat>, x: nat, y: nat) {
    t.Valid() && t.shape == lead + [x, y]
  }

  lemma PairInBounds(lead: seq<nat>, x: nat, y: nat, l: seq<nat>, i: nat, j: nat)
    requires InBounds(lead, l) && i < x && j < y
    ensures InBounds(lead + [x, y], l + [i, j])
  {
  }

  lemma PadShape(lead: seq<nat>, rows: nat, cols: nat, bottom: nat, side: nat)
    ensures var rank := |lead| + 2;
      AddShapes(lead + [rows, cols], HighPads(rank, [|lead|, |lead| + 1], [bottom, side]))
        == lead + [rows + bottom, cols + side]
  {
    var rank := |lead| + 2;
    assert [|lead|, rank - 1][1..] == [rank - 1] && [bottom, side][1..] == [side];
    assert [rank - 1][1..] == [] && [side][1..] == [];
    assert HighPads(rank, [rank - 1], [side]) == seq(rank, _ => 0)[rank - 1 := side];
  }

  // Zeros below and to the right, up to whole blocks; nothing to do if the sizes fit.
  function Pad<V>(t: Tensor<V>, lead: seq<nat>, rows: nat, cols: nat, zero: V): (r: Tensor<V>)
    requires Shaped(t, lead, rows, cols)
    ensures Shaped(r, lead, BLOCK * Blocks(rows), BLOCK * Blocks(cols))
  {
    var bottom, side := BLOCK * Blocks(rows) - rows, BLOCK * Blocks(cols) - cols;
    var rank := |lead| + 2;
    if bottom > 0 || side > 0 then
      PadShape(lead, rows, cols, bottom, side);
      PadConstant(t, [rank - 2, rank - 1], [bottom, side], zero)
    else t
  }

  lemma PadByAt<V>(t: Tensor<V>, lead: seq<nat>, rows: nat, cols: nat, bottom: nat, side: nat, zero: V, l: seq<nat>,
                   i: nat, j: nat)
    requires Shaped(t, lead, rows, cols) && InBounds(lead, l) && i < rows && j < cols
    ensures InBounds(t.shape, l + [i, j]) && InBounds(lead + [rows + bottom, cols + side], l + [i, j])
    ensures var r := PadConstant(t, [|lead|, |lead| + 1], [bottom, side], zero);
      r.shape == lead + [rows + bottom, cols + side] && r.At(l + [i, j]) == t.At(l + [i, j])
  {
    PairInBounds(lead, rows, cols, l, i, j);
    PairInBounds(lead, rows + bottom, cols + side, l, i, j);
    PadShape(lead, rows, cols, bottom, side);
    PadConstantAt(t, [|lead|, |lead| + 1], [bottom, side], zero, lead + [rows + bottom, cols + side], l + [i, j]);
  }

  lemma PadAt<V>(t: Tensor<V>, lead: seq<nat>, rows: nat, cols: nat, zero: V, l: seq<nat>, i: nat, j: nat)
    requires Shaped(t, lead, rows, cols) && InBounds(lead, l) && i < rows && j < cols
    ensures InBounds(lead + [BLOCK * Blocks(rows), BLOCK * Blocks(cols)], l + [i, j])
    ensures InBounds(t.shape, l + [i, j]) && Pad(t, lead, rows, cols, zero).At(l + [i, j]) == t.At(l + [i, j])
  {
    BlocksCover(rows);
    BlocksCover(cols);
    PadByAt(t, lead, rows, cols, BLOCK * Blocks(rows) - rows, BLOCK * Blocks(cols) - cols, zero, l, i, j);
  }

  // The scale with an axis of length one beside each of its two block axes.
  function ScaleGrid<S>(scale: Tensor<S>, lead: seq<nat>, x: nat, y: nat): (r: Tensor<S>)
    requires Shaped(scale, lead, x, y)
    ensures r.Valid() && r.shape == lead + [x, 1, y, 1]
  {
    var once := ExpandDims(scale, |lead| + 1);
    assert scale.shape[..|lead| + 1] == lead + [x] && scale.shape[|lead| + 1..] == [y];
    assert once.shape == lead + [x, 1, y];
    assert once.shape[..|lead| + 3] == lead + [x, 1, y] && once.shape[|lead| + 3..] == [];
    ExpandDims(once, |lead| + 3)
  }

  lemma ScaleGridAt<S>(scale: Tensor<S>, lead: seq<nat>, x: nat, y: nat, l: seq<nat>, a: nat, c: nat)
    requires Shaped(scale, lead, x, y) && InBounds(lead, l) && a < x && c < y
    ensures InBounds(lead + [x, 1, y, 1], l + [a, 0, c, 0])
    ensures ScaleGrid(scale, lead, x, y).At(l + [a, 0, c, 0]) == scale.At(l + [a, c])
  {
    var n := Ravel(lead, l);
    var place := n * x + a;
    var next := place * y + c;
    FourPlaces(lead, l, x, a, 1, 0, y, c, 1, 0, n, place, place, next, next);
    TwoPlaces(lead, l, x, a, y, c, n, place, next);
  }

  lemma BlockedBroadcasts(lead: seq<nat>, x: nat, y: nat)
    ensures Broadcasts(lead + [x, BLOCK, y, BLOCK], lead + [x, 1, y, 1])
    ensures BroadcastShape(lead + [x, BLOCK, y, BLOCK], lead + [x, 1, y, 1]) == lead + [x, BLOCK, y, BLOCK]
  {
  }

  // Every block times its own scale.
  function ScaleBlocks<W, S, P, V>(t: Tensor<V>, scale: Tensor<S>, lead: seq<nat>, x: nat, y: nat, ops: Arithmetic<W, S, P, V>): (r: Tensor<V>)
    requires Shaped(t, lead, BLOCK * x, BLOCK * y) && Shaped(scale, lead, x, y)
    ensures Shaped(r, lead, BLOCK * x, BLOCK * y)
  {
    SplitSameSize(lead, x, y);
    BlockedBroadcasts(lead, x, y);
    var blocked := Reshape(t, lead + [x, BLOCK, y, BLOCK]);
    var product := Map(Mul(blocked, ScaleGrid(scale, lead, x, y), ops.mul), ops.asType);
    Reshape(product, lead + [BLOCK * x, BLOCK * y])
  }

  lemma QuadBounds(lead: seq<nat>, x: nat, y: nat, l: seq<nat>, a: nat, b: nat, c: nat, d: nat)
    requires InBounds(lead, l) && a < x && b < BLOCK && c < y && d < BLOCK
    ensures InBounds(lead + [x, BLOCK, y, BLOCK], l + [a, b, c, d])
    ensures Clamp(lead + [x, BLOCK, y, BLOCK], l + [a, b, c, d]) == l + [a, b, c, d]
    ensures Clamp(lead + [x, 1, y, 1], l + [a, b, c, d]) == l + [a, 0, c, 0]
  {
  }

  lemma ProductAt<W, S, P, V>(blocked: Tensor<V>, grid: Tensor<S>, lead: seq<nat>, x: nat, y: nat,
                              ops: Arithmetic<W, S, P, V>, l: seq<nat>, a: nat, b: nat, c: nat, d: nat)
    requires blocked.Valid() && blocked.shape == lead + [x, BLOCK, y, BLOCK]
    requires grid.Valid() && grid.shape == lead + [x, 1, y, 1]
    requires InBounds(lead, l) && a < x && b < BLOCK && c < y && d < BLOCK
    ensures Broadcasts(blocked.shape, grid.shape)
    ensures InBounds(blocked.shape, l + [a, b, c, d]) && InBounds(grid.shape, l + [a, 0, c, 0])
    ensures var product := Map(Mul(blocked, grid, ops.mul), ops.asType);
      product.shape == blocked.shape
      && product.At(l + [a, b, c, d]) == ops.asType(ops.mul(blocked.At(l + [a, b, c, d]), grid.At(l + [a, 0, c, 0])))
  {
    BlockedBroadcasts(lead, x, y);
    QuadBounds(lead, x, y, l, a, b, c, d);
    var idx := l + [a, b, c, d];
    var raw := Mul(blocked, grid, ops.mul);
    MulAt(blocked, grid, ops.mul, idx);
    MapAt(raw, ops.asType, idx);
    assert InBounds(lead + [x, 1, y, 1], l + [a, 0, c, 0]);
  }

  lemma InBlock(x: nat, a: nat, b: nat)
    requires a < x && b < BLOCK
    ensures BLOCK * a + b < BLOCK * x
  {
  }

  lemma ScaleBlocksAt<W, S, P, V>(t: Tensor<V>, scale: Tensor<S>, lead: seq<nat>, x: nat, y: nat,
                                  ops: Arithmetic<W, S, P, V>, l: seq<nat>, a: nat, b: nat, c: nat, d: nat, i: nat, j: nat)
    requires Shaped(t, lead, BLOCK * x, BLOCK * y) && Shaped(scale, lead, x, y)
    requires InBounds(lead, l) && a < x && b < BLOCK && c < y && d < BLOCK
    requires i == BLOCK * a + b && j == BLOCK * c + d
    ensures InBounds(t.shape, l + [i, j]) && InBounds(scale.shape, l + [a, c])
    ensures ScaleBlocks(t, scale, lead, x, y, ops).At(l + [i, j])
         == ops.asType(ops.mul(t.At(l + [i, j]), scale.At(l + [a, c])))
  {
    var split, joint := lead + [x, BLOCK, y, BLOCK], lead + [BLOCK * x, BLOCK * y];
    SplitSameSize(lead, x, y);
    var blocked, grid := Reshape(t, split), ScaleGrid(scale, lead, x, y);
    SplitSamePlace(lead, x, y, l, a, b, c, d, i, j);
    ScaleGridAt(scale, lead, x, y, l, a, c);
    PairInBounds(lead, x, y, l, a, c);
    InBlock(x, a, b);
    InBlock(y, c, d);
    PairInBounds(lead, BLOCK * x, BLOCK * y, l, i, j);
    ProductAt(blocked, grid, lead, x, y, ops, l, a, b, c, d);
    ReshapeAt(t, split, l + [a, b, c, d], l + [i, j]);
    BlockedBroadcasts(lead, x, y);
    ReshapeAt(Map(Mul(blocked, grid, ops.mul), ops.asType), joint, l + [i, j], l + [a, b, c, d]);
  }

  function Zeros(n: nat): (z: seq<nat>) {
    seq(n, _ => 0)
  }

  // Cuts the padding off again.
  function Unpad<V>(t: Tensor<V>, lead: seq<nat>, rows: nat, cols: nat): (r: Tensor<V>)
    requires Shaped(t, lead, BLOCK * Blocks(rows), BLOCK * Blocks(cols))
    ensures Shaped(r, lead, rows, cols)
  {
    BlocksCover(rows);
    BlocksCover(cols);
    if BLOCK * Blocks(rows) > rows || BLOCK * Blocks(cols) > cols then
      var stops := lead + [rows, cols];
      var r := SliceStartStop(t, Zeros(|stops|), stops);
      assert r.shape == stops;
      r
    else t
  }

  lemma UnpadAt<V>(t: Tensor<V>, lead: seq<nat>, rows: nat, cols: nat, l: seq<nat>, i: nat, j: nat)
    requires Shaped(t, lead, BLOCK * Blocks(rows), BLOCK * Blocks(cols))
    requires InBounds(lead, l) && i < rows && j < cols
    ensures InBounds(t.shape, l + [i, j]) && Unpad(t, lead, rows, cols).At(l + [i, j]) == t.At(l + [i, j])
  {
    BlocksCover(rows);
    BlocksCover(cols);
    if BLOCK * Blocks(rows) > rows || BLOCK * Blocks(cols) > cols {
      SliceFromZeroAt(t, lead + [rows, cols], l + [i, j]);
    }
  }

  // ---------- the decoder ----------

  function DecodeSourceFP8<W, S, P, V>(weight: Tensor<W>, scale: Tensor<S>, ops: Arithmetic<W, S, P, V>): (r: Result<Tensor<V>, string>)
    requires weight.Valid() && scale.Valid()
    ensures r.Ok? ==> r.value.Valid() && r.value.shape == weight.shape
  {
    var rank := |weight.shape|;
    if (rank != 2 && rank != 3) || |scale.shape| != rank then
      Err("expected matching 2D or 3D fp8 weight and scale tensors")
    else
      var lead, rows, cols := weight.shape[..rank - 2], weight.shape[rank - 2], weight.shape[rank - 1];
      var sr, sc := Blocks(rows), Blocks(cols);
      if scale.shape != lead + [sr, sc] then Err("unexpected fp8 scale shape")
      else
        assert weight.shape == lead + [rows, cols];
        var padded := Pad(Map(weight, ops.fromFP8), lead, rows, cols, ops.zero);
        Ok(Unpad(ScaleBlocks(padded, scale, lead, sr, sc, ops), lead, rows, cols))
  }

  // The scale tensor a weight of this shape needs: one entry for every 128x128 block.
  predicate ScaleFits(weight: seq<nat>, scale: seq<nat>) {
    && (|weight| == 2 || |weight| == 3) && |scale| == |weight|
    && scale[|scale| - 2] == Blocks(weight[|weight| - 2]) && scale[|scale| - 1] == Blocks(weight[|weight| - 1])
    && (|weight| == 3 ==> scale[0] == weight[0])
  }

  // Decoding succeeds exactly on 2D and 3D weights with one scale per block.
  lemma DecodeSucceedsIff<W, S, P, V>(weight: Tensor<W>, scale: Tensor<S>, ops: Arithmetic<W, S, P, V>)
    requires weight.Valid() && scale.Valid()
    ensures DecodeSourceFP8(weight, scale, ops).Ok? <==> ScaleFits(weight.shape, scale.shape)
  {
    var rank := |weight.shape|;
    if |scale.shape| == rank && (rank == 2 || rank == 3) {
      var lead := weight.shape[..rank - 2];
      var want := lead + [Blocks(weight.shape[rank - 2]), Blocks(weight.shape[rank - 1])];
      assert want[rank - 2] == Blocks(weight.shape[rank - 2]) && want[rank - 1] == Blocks(weight.shape[rank - 1]);
      assert rank == 3 ==> want[0] == weight.shape[0];
      if ScaleFits(weight.shape, scale.shape) {
        forall i | 0 <= i < rank ensures scale.shape[i] == want[i] {}
      }
    }
  }

  lemma DecodeSteps<W, S, P, V>(weight: Tensor<W>, scale: Tensor<S>, ops: Arithmetic<W, S, P, V>, lead: seq<nat>,
                                rows: nat, cols: nat)
    requires Shaped(weight, lead, rows, cols) && Shaped(scale, lead, Blocks(rows), Blocks(cols)) && |lead| <= 1
    ensures var padded := Pad(Map(weight, ops.fromFP8), lead, rows, cols, ops.zero);
      DecodeSourceFP8(weight, scale, ops) == Ok(Unpad(ScaleBlocks(padded, scale, lead, Blocks(rows), Blocks(cols), ops), lead, rows, cols))
  {
    var rank := |weight.shape|;
    assert weight.shape[..rank - 2] == lead && weight.shape[rank - 2] == rows && weight.shape[rank - 1] == cols;
  }

  // The entry at place b, d of block a, c.
  lemma DecodeAt<W, S, P, V>(weight: Tensor<W>, scale: Tensor<S>, ops: Arithmetic<W, S, P, V>, lead: seq<nat>,
                             rows: nat, cols: nat, sr: nat, sc: nat, l: seq<nat>, i: nat, j: nat, a: nat, b: nat, c: nat, d: nat)
    requires Shaped(weight, lead, rows, cols) && Shaped(scale, lead, sr, sc) && sr == Blocks(rows) && sc == Blocks(cols)
    requires |lead| <= 1 && InBounds(lead, l) && i < rows && j < cols
    requires a < sr && b < BLOCK && i == BLOCK * a + b && c < sc && d < BLOCK && j == BLOCK * c + d
    ensures InBounds(weight.shape, l + [i, j]) && InBounds(scale.shape, l + [a, c])
    ensures var r := DecodeSourceFP8(weight, scale, ops);
      r.Ok? && r.value.At(l + [i, j]) == ops.asType(ops.mul(ops.fromFP8(weight.At(l + [i, j])), scale.At(l + [a, c])))
  {
    DecodeSteps(weight, scale, ops, lead, rows, cols);
    var decoded := Map(weight, ops.fromFP8);
    var padded := Pad(decoded, lead, rows, cols, ops.zero);
    PairInBounds(lead, rows, cols, l, i, j);
    MapAt(weight, ops.fromFP8, l + [i, j]);
    PadAt(decoded, lead, rows, cols, ops.zero, l, i, j);
    ScaleBlocksAt(padded, scale, lead, sr, sc, ops, l, a, b, c, d, i, j);
    UnpadAt(ScaleBlocks(padded, scale, lead, sr, sc, ops), lead, rows, cols, l, i, j);
  }

  // Entry [.., i, j] of the result is the decoded weight there times the scale of its block,
  // whatever the sizes; l is empty or the expert index.
  lemma DecodePointwise<W, S, P, V>(weight: Tensor<W>, scale: Tensor<S>, ops: Arithmetic<W, S, P, V>,
                                    lead: seq<nat>, rows: nat, cols: nat, l: seq<nat>, i: nat, j: nat)
    requires Shaped(weight, lead, rows, cols) && Shaped(scale, lead, Blocks(rows), Blocks(cols))
    requires |lead| <= 1 && InBounds(lead, l) && i < rows && j < cols
    ensures InBounds(weight.shape, l + [i, j]) && InBounds(scale.shape, l + [i / BLOCK, j / BLOCK])
    ensures var r := DecodeSourceFP8(weight, scale, ops);
      r.Ok? && r.value.shape == weight.shape
      && r.value.At(l + [i, j])
           == ops.asType(ops.mul(ops.fromFP8(weight.At(l + [i, j])), scale.At(l + [i / BLOCK, j / BLOCK])))
  {
    BlockOf(rows, i);
    BlockOf(cols, j);
    DecodeAt(weight, scale, ops, lead, rows, cols, Blocks(rows), Blocks(cols), l, i, j, i / BLOCK, i % BLOCK, j / BLOCK, j % BLOCK);
  }
}
