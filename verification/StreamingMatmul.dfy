/** The two EXL3 matrix products of kernel_lab/exl3/reference.py over exact arithmetic:
    against the fully reconstructed weight, and streaming one decoded tile at a time. */
module StreamingMatmul {
  import opened Common
  import Arith
  import TrellisCodec

  const TILE := 16

  type Vec = nat -> real
  type Mat = (nat, nat) -> real

  // ----- finite sums -----

  function Sum(f: Vec, lo: nat, n: nat): real {
    if n == 0 then 0.0 else Sum(f, lo, n - 1) + f(lo + n - 1)
  }

  lemma {:induction false} SumSame(f: Vec, g: Vec, lo: nat, n: nat)
    requires forall i: nat :: lo <= i < lo + n ==> f(i) == g(i)
    ensures Sum(f, lo, n) == Sum(g, lo, n)
  {
    if n > 0 {
      SumSame(f, g, lo, n - 1);
    }
  }

  lemma {:induction false} SumZero(f: Vec, lo: nat, n: nat)
    requires forall i: nat :: lo <= i < lo + n ==> f(i) == 0.0
    ensures Sum(f, lo, n) == 0.0
  {
    if n > 0 {
      SumZero(f, lo, n - 1);
    }
  }

  lemma {:induction false} SumAdd(f: Vec, g: Vec, h: Vec, lo: nat, n: nat)
    requires forall i: nat :: lo <= i < lo + n ==> h(i) == f(i) + g(i)
    ensures Sum(h, lo, n) == Sum(f, lo, n) + Sum(g, lo, n)
  {
    if n > 0 {
      SumAdd(f, g, h, lo, n - 1);
    }
  }

  lemma {:induction false} SumScale(f: Vec, g: Vec, k: real, lo: nat, n: nat)
    requires forall i: nat :: lo <= i < lo + n ==> g(i) == k * f(i)
    ensures Sum(g, lo, n) == k * Sum(f, lo, n)
  {
    if n > 0 {
      SumScale(f, g, k, lo, n - 1);
    }
  }

  lemma {:induction false} SumSplit(f: Vec, lo: nat, a: nat, b: nat)
    ensures Sum(f, lo, a + b) == Sum(f, lo, a) + Sum(f, lo + a, b)
  {
    if b > 0 {
      SumSplit(f, lo, a, b - 1);
    }
  }

  function Row(f: Mat, i: nat): Vec { (j: nat) => f(i, j) }

  function Col(f: Mat, j: nat): Vec { (i: nat) => f(i, j) }

  function RowSums(f: Mat, lo: nat, n: nat): Vec { (i: nat) => Sum(Row(f, i), lo, n) }

  function ColSums(f: Mat, lo: nat, n: nat): Vec { (j: nat) => Sum(Col(f, j), lo, n) }

  /** Summing by rows or by columns is the same. */
  lemma {:induction false} Fubini(f: Mat, a: nat, n: nat, b: nat, m: nat)
    ensures Sum(RowSums(f, b, m), a, n) == Sum(ColSums(f, a, n), b, m)
  {
    if n == 0 {
      SumZero(ColSums(f, a, n), b, m);
    } else {
      Fubini(f, a, n - 1, b, m);
      var last := Row(f, a + n - 1);
      SumAdd(ColSums(f, a, n - 1), last, ColSums(f, a, n), b, m);
    }
  }

  // ----- block Hadamards -----

  /** The transform of one block and the block's width (128 in the format). */
  datatype Had = Had(entry: Mat, block: nat)

  type Transform = h: Had | h.block > 0 witness Had((i: nat, j: nat) => 1.0, 1)

  function BlockStart(h: Transform, i: nat): nat { i / h.block * h.block }

  /** Entry (i, j) of the block transform. */
  function Entry(h: Transform, i: nat, j: nat): real { h.entry(i % h.block, j % h.block) }

  function RightTerm(u: Vec, h: Transform, j: nat): Vec { (c: nat) => u(c) * Entry(h, c, j) }

  function LeftTerm(g: Vec, h: Transform, i: nat): Vec { (k: nat) => Entry(h, i, k) * g(k) }

  /** A row times the block-diagonal transform. */
  function RightVec(u: Vec, h: Transform): Vec { (j: nat) => Sum(RightTerm(u, h, j), BlockStart(h, j), h.block) }

  /** The block-diagonal transform times a column. */
  function LeftVec(g: Vec, h: Transform): Vec { (i: nat) => Sum(LeftTerm(g, h, i), BlockStart(h, i), h.block) }

  /** Each 128-wide slice of every row times `h`. */
  function RightHad(f: Mat, h: Transform): Mat { (i: nat, j: nat) => RightVec(Row(f, i), h)(j) }

  /** `h` times each 128-high slice of every column. */
  function LeftHad(f: Mat, h: Transform): Mat { (i: nat, j: nat) => LeftVec(Col(f, j), h)(i) }

  lemma RightHadAt(f: Mat, h: Transform, i: nat, j: nat)
    ensures RightHad(f, h)(i, j) == Sum(RightTerm(Row(f, i), h, j), BlockStart(h, j), h.block)
  {
    assert RightHad(f, h)(i, j) == RightVec(Row(f, i), h)(j);
  }

  function Times(u: Vec, g: Vec): Vec { (i: nat) => u(i) * g(i) }

  lemma InBlock(h: Transform, b: nat, i: nat)
    requires b * h.block <= i < b * h.block + h.block
    ensures BlockStart(h, i) == b * h.block
  {
    Arith.DivUnique(i, h.block, b, i - b * h.block);
  }

  function Cross(u: Vec, g: Vec, h: Transform): Mat { (i: nat, k: nat) => u(i) * Entry(h, i, k) * g(k) }

  lemma Assoc(a: real, b: real, c: real)
    ensures a * b * c == a * (b * c) && a * b * c == c * (a * b)
  {
  }

  lemma CrossTerm(u: Vec, g: Vec, h: Transform, i: nat, k: nat)
    ensures Cross(u, g, h)(i, k) == u(i) * LeftTerm(g, h, i)(k)
    ensures Cross(u, g, h)(i, k) == g(k) * RightTerm(u, h, k)(i)
  {
    var a, b, c := u(i), Entry(h, i, k), g(k);
    assert Cross(u, g, h)(i, k) == a * b * c;
    assert LeftTerm(g, h, i)(k) == b * c && RightTerm(u, h, k)(i) == a * b;
    Assoc(a, b, c);
  }

  lemma LeftInBlock(u: Vec, g: Vec, h: Transform, b: nat, i: nat)
    requires b * h.block <= i < b * h.block + h.block
    ensures Times(u, LeftVec(g, h))(i) == RowSums(Cross(u, g, h), b * h.block, h.block)(i)
  {
    InBlock(h, b, i);
    forall k: nat ensures Row(Cross(u, g, h), i)(k) == u(i) * LeftTerm(g, h, i)(k) { CrossTerm(u, g, h, i, k); }
    SumScale(LeftTerm(g, h, i), Row(Cross(u, g, h), i), u(i), b * h.block, h.block);
  }

  lemma RightInBlock(u: Vec, g: Vec, h: Transform, b: nat, k: nat)
    requires b * h.block <= k < b * h.block + h.block
    ensures Times(RightVec(u, h), g)(k) == ColSums(Cross(u, g, h), b * h.block, h.block)(k)
  {
    InBlock(h, b, k);
    forall i: nat ensures Col(Cross(u, g, h), k)(i) == g(k) * RightTerm(u, h, k)(i) { CrossTerm(u, g, h, i, k); }
    SumScale(RightTerm(u, h, k), Col(Cross(u, g, h), k), g(k), b * h.block, h.block);
  }

  lemma OneBlock(u: Vec, g: Vec, h: Transform, b: nat)
    ensures Sum(Times(u, LeftVec(g, h)), b * h.block, h.block) == Sum(Times(RightVec(u, h), g), b * h.block, h.block)
  {
    var l, r, f, lo := Times(u, LeftVec(g, h)), Times(RightVec(u, h), g), Cross(u, g, h), b * h.block;
    forall i: nat | lo <= i < lo + h.block ensures l(i) == RowSums(f, lo, h.block)(i) { LeftInBlock(u, g, h, b, i); }
    forall i: nat | lo <= i < lo + h.block ensures r(i) == ColSums(f, lo, h.block)(i) { RightInBlock(u, g, h, b, i); }
    SumSame(l, RowSums(f, lo, h.block), lo, h.block);
    SumSame(r, ColSums(f, lo, h.block), lo, h.block);
    Fubini(f, lo, h.block, lo, h.block);
  }

  lemma TwoParts(f: Vec, g: Vec, a: nat, n: nat)
    requires Sum(f, 0, a) == Sum(g, 0, a) && Sum(f, a, n) == Sum(g, a, n)
    ensures Sum(f, 0, a + n) == Sum(g, 0, a + n)
  {
    SumSplit(f, 0, a, n);
    SumSplit(g, 0, a, n);
  }

  /** Transforming the column or the row gives the same product, block by block. */
  lemma {:induction false} TransformMoves(u: Vec, g: Vec, h: Transform, blocks: nat)
    ensures blocks * h.block >= 0
    ensures Sum(Times(u, LeftVec(g, h)), 0, blocks * h.block) == Sum(Times(RightVec(u, h), g), 0, blocks * h.block)
  {
    Arith.MulMono(h.block, 0, blocks);
    if blocks > 0 {
      TransformMoves(u, g, h, blocks - 1);
      OneBlock(u, g, h, blocks - 1);
      Arith.OneMore(blocks - 1, h.block);
      TwoParts(Times(u, LeftVec(g, h)), Times(RightVec(u, h), g), (blocks - 1) * h.block, h.block);
    }
  }

  // ----- packed weights -----

  /** Tensor-core order of the 16x16 tile: the source position of fragment entry `p`. */
  function Permute(p: nat): (q: nat)
    ensures p < 256 ==> q < 256
  {
    var thread, v := p / 8, p % 8;
    var row := thread % 4 * 2 + (if v % 4 == 0 then 0 else if v % 4 == 1 then 1 else if v % 4 == 2 then 8 else 9);
    var col := thread / 4 + (if v / 4 == 0 then 0 else 8);
    row * 16 + col
  }

  /** `argsort` of the permutation: where a tile entry sits in fragment order. */
  function Unpermute(q: nat): (p: nat)
    ensures q < 256 ==> p < 256
  {
    var row, col := q / 16, q % 16;
    var thread := col % 8 * 4 + row % 8 / 2;
    thread * 8 + (if col < 8 then 0 else 4) + row % 2 + (if row < 8 then 0 else 2)
  }

  lemma PermuteAt(thread: nat, v: nat)
    requires thread < 32 && v < 8
    ensures Permute(thread * 8 + v) == (thread % 4 * 2 + v % 2 + v % 4 / 2 * 8) * 16 + thread / 4 + v / 4 * 8
  {
    Arith.DivUnique(thread * 8 + v, 8, thread, v);
  }

  lemma UnpermuteAt(row: nat, col: nat)
    requires row < 16 && col < 16
    ensures Unpermute(row * 16 + col) == (col % 8 * 4 + row % 8 / 2) * 8 + col / 8 * 4 + row % 2 + row / 8 * 2
  {
    Arith.DivUnique(row * 16 + col, 16, row, col);
  }

  /** A row or column index split into its three bit fields. */
  lemma Fields(hi: nat, mid: nat, lo: nat)
    requires hi < 2 && mid < 4 && lo < 2
    ensures var r := hi * 8 + mid * 2 + lo;
            r % 8 == mid * 2 + lo && r / 8 == hi && r % 2 == lo && r % 8 / 2 == mid
  {
    Arith.DivUnique(hi * 8 + mid * 2 + lo, 8, hi, mid * 2 + lo);
    Arith.DivUnique(hi * 8 + mid * 2 + lo, 2, hi * 4 + mid, lo);
    Arith.DivUnique(mid * 2 + lo, 2, mid, lo);
  }

  lemma PermuteFields(a: nat, b: nat, e: nat, c: nat, d: nat)
    requires a < 2 && b < 4 && e < 2 && c < 2 && d < 8
    ensures Permute(d * 32 + b * 8 + c * 4 + a * 2 + e) == (a * 8 + b * 2 + e) * 16 + c * 8 + d
  {
    var thread, v := d * 4 + b, c * 4 + a * 2 + e;
    PermuteAt(thread, v);
    Arith.DivUnique(thread, 4, d, b);
    Arith.DivUnique(v, 4, c, a * 2 + e);
    Arith.DivUnique(v, 2, c * 2 + a, e);
    Arith.DivUnique(a * 2 + e, 2, a, e);
  }

  /** The tile's fragment order is a permutation and `argsort` undoes it: entry
      (8 a + 2 b + e, 8 c + d) sits at fragment position 32 d + 8 b + 4 c + 2 a + e. */
  lemma PermuteInverse(a: nat, b: nat, e: nat, c: nat, d: nat)
    requires a < 2 && b < 4 && e < 2 && c < 2 && d < 8
    ensures var q, p := (a * 8 + b * 2 + e) * 16 + c * 8 + d, d * 32 + b * 8 + c * 4 + a * 2 + e;
            Permute(p) == q && Unpermute(q) == p
  {
    PermuteFields(a, b, e, c, d);
    UnpermuteAt(a * 8 + b * 2 + e, c * 8 + d);
    Fields(a, b, e);
    Arith.DivUnique(c * 8 + d, 8, c, d);
  }

  /** One packed matrix: `rows` x `cols` features, tiles of `bits`-bit states, input and
      output scales, and the codebook value of each state. */
  datatype Weight = Weight(rows: nat, cols: nat, bits: nat, trellis: (nat, nat) -> seq<nat>, suh: Vec, svh: Vec, codebook: Vec)

  /** `decode_tiles`: entry (a, b) of a tile. */
  function TileEntry(w: Weight, words: seq<nat>, a: nat, b: nat): real {
    if |words| == TILE * w.bits && a < TILE && b < TILE then
      w.codebook(TrellisCodec.UnpackTile(words, w.bits)[Unpermute(a * TILE + b)])
    else 0.0
  }

  /** The 256 states of a tile, given row by row, in fragment order: how a tile is packed. */
  function FragmentOrder(states: seq<nat>): (v: seq<nat>)
    requires |states| == TrellisCodec.STATES
    ensures |v| == TrellisCodec.STATES
  {
    seq(TrellisCodec.STATES, p requires 0 <= p < TrellisCodec.STATES => if Permute(p) < |states| then states[Permute(p)] else 0)
  }

  lemma PermuteBack(row: nat, col: nat)
    requires row < TILE && col < TILE
    ensures var p := Unpermute(row * TILE + col); p < 256 && Permute(p) == row * TILE + col
  {
    var a, b, e := row / 8, row % 8 / 2, row % 2;
    assert row == a * 8 + b * 2 + e;
    PermuteInverse(a, b, e, col / 8, col % 8);
    assert row * TILE + col == (a * 8 + b * 2 + e) * 16 + col / 8 * 8 + col % 8;
  }

  /** Main theorem: a tile decodes to what was encoded. The states of a tile, put in
      fragment order, packed, unpacked and put back, give entry by entry the codebook value
      of the state of that entry. */
  lemma DecodeOfEncode(w: Weight, states: seq<nat>, row: nat, col: nat)
    requires TrellisCodec.ValidTile(states, w.bits) && row < TILE && col < TILE
    ensures row * TILE + col < |states|
    ensures TileEntry(w, TrellisCodec.PackTile(FragmentOrder(states), w.bits), row, col) == w.codebook(states[row * TILE + col])
  {
    PermuteBack(row, col);
    TrellisCodec.UnpackOfPack(FragmentOrder(states), w.bits);
  }

  /** `reconstruct_inner`. */
  function Inner(w: Weight): Mat {
    (k: nat, n: nat) => TileEntry(w, w.trellis(k / TILE, n / TILE), k % TILE, n % TILE)
  }

  function ScaledRows(w: Weight, f: Mat): Mat { (k: nat, n: nat) => w.suh(k) * f(k, n) }

  /** `reconstruct_weight`. */
  function Reconstruct(w: Weight, h: Transform): Mat {
    (k: nat, n: nat) => RightHad(ScaledRows(w, LeftHad(Inner(w), h)), h)(k, n) * w.svh(n)
  }

  /** `matmul_materialized_reference`. */
  function Dense(x: Mat, w: Weight, h: Transform, m: nat, n: nat): real {
    Sum(Times(Row(x, m), Col(Reconstruct(w, h), n)), 0, w.rows)
  }

  /** One activation row times the input scales. */
  function ScaledInput(x: Mat, w: Weight, m: nat): Vec { Times(Row(x, m), w.suh) }

  /** The product of the transformed, scaled input with an inner matrix. */
  function Product(x: Mat, suh: Vec, inner: Mat, rows: nat, h: Transform): Mat {
    (m: nat, n: nat) => Sum(Times(RightVec(Times(Row(x, m), suh), h), Col(inner, n)), 0, rows)
  }

  /** What the tile loops accumulate. */
  function Accumulated(x: Mat, w: Weight, h: Transform): Mat { Product(x, w.suh, Inner(w), w.rows, h) }

  /** What the streaming product leaves in the output. */
  function Streamed(x: Mat, w: Weight, h: Transform, m: nat, n: nat): real {
    RightHad(Accumulated(x, w, h), h)(m, n) * w.svh(n)
  }

  // ----- the two products agree -----

  /** One term of the dense product: input `i`, column `c` of the output's block. */
  function Outer(u: Vec, l: Mat, h: Transform, n: nat): Mat { (i: nat, c: nat) => u(i) * l(i, c) * Entry(h, c, n) }

  lemma OuterTerm(x: Mat, w: Weight, l: Mat, h: Transform, m: nat, n: nat, i: nat, c: nat)
    ensures Outer(ScaledInput(x, w, m), l, h, n)(i, c) == x(m, i) * RightTerm(Row(ScaledRows(w, l), i), h, n)(c)
  {
    var a, b, d, e := x(m, i), w.suh(i), l(i, c), Entry(h, c, n);
    assert ScaledInput(x, w, m)(i) == a * b && Row(ScaledRows(w, l), i)(c) == b * d;
    assert Outer(ScaledInput(x, w, m), l, h, n)(i, c) == a * b * d * e;
    assert RightTerm(Row(ScaledRows(w, l), i), h, n)(c) == b * d * e;
    assert a * b * d * e == a * (b * d * e);
  }

  /** Row `i` of the dense product without the output scale. */
  lemma DenseRow(x: Mat, w: Weight, l: Mat, h: Transform, m: nat, n: nat, i: nat)
    ensures x(m, i) * RightHad(ScaledRows(w, l), h)(i, n) == RowSums(Outer(ScaledInput(x, w, m), l, h, n), BlockStart(h, n), h.block)(i)
  {
    var f, g := RightTerm(Row(ScaledRows(w, l), i), h, n), Row(Outer(ScaledInput(x, w, m), l, h, n), i);
    forall c: nat ensures g(c) == x(m, i) * f(c) { OuterTerm(x, w, l, h, m, n, i, c); }
    SumScale(f, g, x(m, i), BlockStart(h, n), h.block);
    RightHadAt(ScaledRows(w, l), h, i, n);
    assert RowSums(Outer(ScaledInput(x, w, m), l, h, n), BlockStart(h, n), h.block)(i) == Sum(g, BlockStart(h, n), h.block);
  }

  lemma DenseColumn(u: Vec, l: Mat, h: Transform, n: nat, rows: nat, c: nat)
    ensures ColSums(Outer(u, l, h, n), 0, rows)(c) == Sum(Times(u, Col(l, c)), 0, rows) * Entry(h, c, n)
  {
    var f, g := Times(u, Col(l, c)), Col(Outer(u, l, h, n), c);
    forall i: nat ensures g(i) == Entry(h, c, n) * f(i) {
      assert f(i) == u(i) * l(i, c) && g(i) == u(i) * l(i, c) * Entry(h, c, n);
      Assoc(u(i), l(i, c), Entry(h, c, n));
    }
    SumScale(f, g, Entry(h, c, n), 0, rows);
  }

  /** The dense product, with the output scale and transform pulled out. */
  lemma DenseByColumns(x: Mat, w: Weight, h: Transform, m: nat, n: nat)
    ensures Dense(x, w, h, m, n)
            == Sum(ColSums(Outer(ScaledInput(x, w, m), LeftHad(Inner(w), h), h, n), 0, w.rows), BlockStart(h, n), h.block) * w.svh(n)
  {
    var l := LeftHad(Inner(w), h);
    var f := Outer(ScaledInput(x, w, m), l, h, n);
    var rows := RowSums(f, BlockStart(h, n), h.block);
    var d := Times(Row(x, m), Col(Reconstruct(w, h), n));
    forall i: nat ensures d(i) == w.svh(n) * rows(i) { DenseEntry(x, w, h, m, n, i); }
    SumScale(rows, d, w.svh(n), 0, w.rows);
    Fubini(f, 0, w.rows, BlockStart(h, n), h.block);
  }

  lemma DenseEntry(x: Mat, w: Weight, h: Transform, m: nat, n: nat, i: nat)
    ensures Times(Row(x, m), Col(Reconstruct(w, h), n))(i)
            == w.svh(n) * RowSums(Outer(ScaledInput(x, w, m), LeftHad(Inner(w), h), h, n), BlockStart(h, n), h.block)(i)
  {
    var l := LeftHad(Inner(w), h);
    DenseRow(x, w, l, h, m, n, i);
    Assoc(x(m, i), RightHad(ScaledRows(w, l), h)(i, n), w.svh(n));
  }

  lemma TimesSame(u: Vec, f: Vec, g: Vec, n: nat)
    requires forall i: nat :: f(i) == g(i)
    ensures Sum(Times(u, f), 0, n) == Sum(Times(u, g), 0, n)
  {
    SumSame(Times(u, f), Times(u, g), 0, n);
  }

  /** Column `c` of the accumulator is the dense column sum. */
  lemma ProductColumn(x: Mat, suh: Vec, inner: Mat, rows: nat, h: Transform, m: nat, c: nat)
    requires rows % h.block == 0
    ensures Product(x, suh, inner, rows, h)(m, c) == Sum(Times(Times(Row(x, m), suh), Col(LeftHad(inner, h), c)), 0, rows)
  {
    var u, g := Times(Row(x, m), suh), Col(inner, c);
    var blocks := rows / h.block;
    Arith.DivMulBounds(rows, h.block);
    assert blocks * h.block == rows;
    TransformMoves(u, g, h, blocks);
    TimesSame(u, LeftVec(g, h), Col(LeftHad(inner, h), c), rows);
  }

  lemma ColumnsAgree(x: Mat, suh: Vec, inner: Mat, rows: nat, h: Transform, m: nat, n: nat, c: nat)
    requires rows % h.block == 0
    ensures ColSums(Outer(Times(Row(x, m), suh), LeftHad(inner, h), h, n), 0, rows)(c)
            == RightTerm(Row(Product(x, suh, inner, rows, h), m), h, n)(c)
  {
    DenseColumn(Times(Row(x, m), suh), LeftHad(inner, h), h, n, rows, c);
    ProductColumn(x, suh, inner, rows, h, m, c);
    RightTermAt(Product(x, suh, inner, rows, h), h, m, n, c);
  }

  lemma RightTermAt(f: Mat, h: Transform, m: nat, n: nat, c: nat)
    ensures RightTerm(Row(f, m), h, n)(c) == f(m, c) * Entry(h, c, n)
  {
  }

  lemma ColumnSumsAgree(x: Mat, suh: Vec, inner: Mat, rows: nat, h: Transform, m: nat, n: nat)
    requires rows % h.block == 0
    ensures Sum(ColSums(Outer(Times(Row(x, m), suh), LeftHad(inner, h), h, n), 0, rows), BlockStart(h, n), h.block)
            == RightHad(Product(x, suh, inner, rows, h), h)(m, n)
  {
    var cols := ColSums(Outer(Times(Row(x, m), suh), LeftHad(inner, h), h, n), 0, rows);
    var acc := RightTerm(Row(Product(x, suh, inner, rows, h), m), h, n);
    forall c: nat ensures cols(c) == acc(c) { ColumnsAgree(x, suh, inner, rows, h, m, n, c); }
    SumSame(cols, acc, BlockStart(h, n), h.block);
    RightHadAt(Product(x, suh, inner, rows, h), h, m, n);
  }

  /** Main theorem: for every input, weight, bitrate, scale and block transform, the
      streaming product is the product with the reconstructed weight. */
  lemma StreamedIsDense(x: Mat, w: Weight, h: Transform, m: nat, n: nat)
    requires w.rows % h.block == 0
    ensures Streamed(x, w, h, m, n) == Dense(x, w, h, m, n)
  {
    DenseByColumns(x, w, h, m, n);
    ColumnSumsAgree(x, w.suh, Inner(w), w.rows, h, m, n);
  }

  // ----- the streaming loop -----

  /** Entry (m, n) of the accumulator after the first `k` inner rows. */
  function Partial(xh: Mat, inner: Mat, m: nat, n: nat, k: nat): real { Sum(Times(Row(xh, m), Col(inner, n)), 0, k) }

  lemma PartialGrows(xh: Mat, inner: Mat, m: nat, n: nat, k: nat, len: nat)
    ensures Partial(xh, inner, m, n, k + len) == Partial(xh, inner, m, n, k) + Sum(Times(Row(xh, m), Col(inner, n)), k, len)
  {
    SumSplit(Times(Row(xh, m), Col(inner, n)), 0, k, len);
  }

  /** The decoded tile holds the inner matrix from (k0, n0) on. */
  ghost predicate IsTile(tile: Mat, inner: Mat, k0: nat, n0: nat, len: nat) {
    forall a: nat, b: nat :: a < len && b < len ==> tile(a, b) == inner(k0 + a, n0 + b)
  }

  /** What one tile adds to output (i, n). */
  ghost function Gain(xh: Mat, inner: Mat, k0: nat, n0: nat, len: nat, i: nat, n: nat): real {
    if n0 <= n < n0 + len then Sum(Times(Row(xh, i), Col(inner, n)), k0, len) else 0.0
  }

  /** `output[:, n0:n1] += xh[:, k0:k1] @ tile`. */
  method AddTile(out: array2<real>, xh: Mat, tile: Mat, ghost inner: Mat, k0: nat, n0: nat, len: nat)
    requires n0 + len <= out.Length1 && IsTile(tile, inner, k0, n0, len)
    modifies out
    ensures forall i, n :: 0 <= i < out.Length0 && 0 <= n < out.Length1 ==> out[i, n] == old(out[i, n]) + Gain(xh, inner, k0, n0, len, i, n)
  {
    var m := 0;
    while m < out.Length0
      invariant 0 <= m <= out.Length0
      invariant forall i, n :: 0 <= i < out.Length0 && 0 <= n < out.Length1 ==>
                  out[i, n] == old(out[i, n]) + (if i < m then Gain(xh, inner, k0, n0, len, i, n) else 0.0)
    {
      AddTileRow(out, xh, tile, inner, k0, n0, len, m);
      m := m + 1;
    }
  }

  method AddTileRow(out: array2<real>, xh: Mat, tile: Mat, ghost inner: Mat, k0: nat, n0: nat, len: nat, m: nat)
    requires n0 + len <= out.Length1 && m < out.Length0 && IsTile(tile, inner, k0, n0, len)
    modifies out
    ensures forall i, n :: 0 <= i < out.Length0 && 0 <= n < out.Length1 ==>
              out[i, n] == old(out[i, n]) + (if i == m then Gain(xh, inner, k0, n0, len, i, n) else 0.0)
  {
    var b := 0;
    while b < len
      invariant 0 <= b <= len
      invariant forall i, n :: 0 <= i < out.Length0 && 0 <= n < out.Length1 ==>
                  out[i, n] == old(out[i, n]) + (if i == m && n < n0 + b then Gain(xh, inner, k0, n0, len, i, n) else 0.0)
    {
      var dot := DotTile(Row(xh, m), tile, inner, k0, n0, len, b);
      out[m, n0 + b] := out[m, n0 + b] + dot;
      b := b + 1;
    }
  }

  method DotTile(u: Vec, tile: Mat, ghost inner: Mat, k0: nat, n0: nat, len: nat, b: nat) returns (s: real)
    requires IsTile(tile, inner, k0, n0, len) && b < len
    ensures s == Sum(Times(u, Col(inner, n0 + b)), k0, len)
  {
    s := 0.0;
    var a := 0;
    while a < len
      invariant 0 <= a <= len && s == Sum(Times(u, Col(inner, n0 + b)), k0, a)
    {
      assert tile(a, b) == inner(k0 + a, n0 + b);
      s := s + u(k0 + a) * tile(a, b);
      a := a + 1;
    }
  }

  lemma TileIsInner(w: Weight, tk: nat, tn: nat)
    ensures IsTile((a: nat, b: nat) => TileEntry(w, w.trellis(tk, tn), a, b), Inner(w), tk * TILE, tn * TILE, TILE)
  {
    forall a: nat, b: nat | a < TILE && b < TILE ensures TileEntry(w, w.trellis(tk, tn), a, b) == Inner(w)(tk * TILE + a, tn * TILE + b) {
      Arith.DivUnique(tk * TILE + a, TILE, tk, a);
      Arith.DivUnique(tn * TILE + b, TILE, tn, b);
    }
  }

  /** Inner rows that output column `n` has accumulated. */
  function Seen(k0: nat, n0: nat, n: nat): nat { if n < n0 then k0 + TILE else k0 }

  /** One row of tiles. */
  method StreamTileRow(out: array2<real>, xh: Mat, w: Weight, tk: nat)
    requires out.Length1 == w.cols && w.cols % TILE == 0
    requires forall i, n :: 0 <= i < out.Length0 && 0 <= n < w.cols ==> out[i, n] == Partial(xh, Inner(w), i, n, tk * TILE)
    modifies out
    ensures forall i, n :: 0 <= i < out.Length0 && 0 <= n < w.cols ==> out[i, n] == Partial(xh, Inner(w), i, n, tk * TILE + TILE)
  {
    Arith.DivMulBounds(w.cols, TILE);
    var k0, tn := tk * TILE, 0;
    while tn < w.cols / TILE
      invariant 0 <= tn <= w.cols / TILE
      invariant forall i, n :: 0 <= i < out.Length0 && 0 <= n < w.cols ==> out[i, n] == Partial(xh, Inner(w), i, n, Seen(k0, tn * TILE, n))
    {
      StreamTile(out, xh, w, tk, tn);
      tn := tn + 1;
    }
  }

  method StreamTile(out: array2<real>, xh: Mat, w: Weight, tk: nat, tn: nat)
    requires out.Length1 == w.cols && tn * TILE + TILE <= w.cols
    requires forall i, n :: 0 <= i < out.Length0 && 0 <= n < w.cols ==> out[i, n] == Partial(xh, Inner(w), i, n, Seen(tk * TILE, tn * TILE, n))
    modifies out
    ensures forall i, n :: 0 <= i < out.Length0 && 0 <= n < w.cols ==> out[i, n] == Partial(xh, Inner(w), i, n, Seen(tk * TILE, tn * TILE + TILE, n))
  {
    var k0, n0 := tk * TILE, tn * TILE;
    TileIsInner(w, tk, tn);
    AddTile(out, xh, (a: nat, b: nat) => TileEntry(w, w.trellis(tk, tn), a, b), Inner(w), k0, n0, TILE);
    forall i, n | 0 <= i < out.Length0 && 0 <= n < w.cols
      ensures Partial(xh, Inner(w), i, n, Seen(k0, n0 + TILE, n)) == Partial(xh, Inner(w), i, n, Seen(k0, n0, n)) + Gain(xh, Inner(w), k0, n0, TILE, i, n)
    {
      PartialGrows(xh, Inner(w), i, n, k0, TILE);
    }
  }

  /** The output transform of one entry. */
  method FinishEntry(out: array2<real>, ghost f: Mat, h: Transform, m: nat, n: nat) returns (s: real)
    requires m < out.Length0 && n < out.Length1 && out.Length1 % h.block == 0
    requires forall c: nat :: c < out.Length1 ==> out[m, c] == f(m, c)
    ensures s == RightHad(f, h)(m, n)
  {
    BlockInside(h, n, out.Length1);
    RightHadAt(f, h, m, n);
    s := 0.0;
    var lo, c := BlockStart(h, n), 0;
    while c < h.block
      invariant 0 <= c <= h.block && s == Sum(RightTerm(Row(f, m), h, n), lo, c)
    {
      s := s + out[m, lo + c] * Entry(h, lo + c, n);
      c := c + 1;
    }
  }

  lemma BlockInside(h: Transform, n: nat, cols: nat)
    requires n < cols && cols % h.block == 0
    ensures BlockStart(h, n) + h.block <= cols
  {
    var a, b := n / h.block, cols / h.block;
    Arith.DivMulBounds(n, h.block);
    Arith.DivMulBounds(cols, h.block);
    Arith.OneMore(a, h.block);
    if a >= b {
      Arith.MulMono(h.block, b, a);
      assert false;
    }
    Arith.MulMono(h.block, a + 1, b);
  }

  /** `matmul_streaming_reference` on `count` activation rows of `features` entries:
      each output is the product with the reconstructed weight. */
  method MatmulStreaming(x: Mat, count: nat, features: nat, w: Weight, h: Transform) returns (r: Option<array2<real>>)
    requires w.rows % h.block == 0 && w.cols % h.block == 0 && h.block % TILE == 0
    ensures r.None? <==> features != w.rows
    ensures r.Some? ==> r.value.Length0 == count && r.value.Length1 == w.cols
                        && forall m, n :: 0 <= m < count && 0 <= n < w.cols ==> r.value[m, n] == Dense(x, w, h, m, n)
  {
    if features != w.rows { return None; }
    TilesDivide(h, w.rows);
    TilesDivide(h, w.cols);
    var xh: Mat := (m: nat, k: nat) => RightVec(ScaledInput(x, w, m), h)(k);
    var out := Accumulate(xh, count, w);
    var result := new real[count, w.cols]((_, _) => 0.0);
    ghost var f := Accumulated(x, w, h);
    forall m: nat, n: nat | m < count && n < w.cols ensures out[m, n] == f(m, n) { SameAccumulated(x, w, h, xh, m, n); }
    var m := 0;
    while m < count
      invariant 0 <= m <= count
      invariant forall i: nat, n: nat :: i < count && n < w.cols ==> out[i, n] == Accumulated(x, w, h)(i, n)
      invariant forall i, n :: 0 <= i < m && 0 <= n < w.cols ==> result[i, n] == Dense(x, w, h, i, n)
    {
      FinishRow(result, out, x, w, h, m);
      m := m + 1;
    }
    r := Some(result);
  }

  lemma SameAccumulated(x: Mat, w: Weight, h: Transform, xh: Mat, m: nat, n: nat)
    requires forall k: nat :: xh(m, k) == RightVec(ScaledInput(x, w, m), h)(k)
    ensures Partial(xh, Inner(w), m, n, w.rows) == Accumulated(x, w, h)(m, n)
  {
    ScaledSame(Row(xh, m), RightVec(ScaledInput(x, w, m), h), Col(Inner(w), n), w.rows);
  }

  lemma ScaledSame(u: Vec, v: Vec, g: Vec, n: nat)
    requires forall k: nat :: u(k) == v(k)
    ensures Sum(Times(u, g), 0, n) == Sum(Times(v, g), 0, n)
  {
    SumSame(Times(u, g), Times(v, g), 0, n);
  }

  lemma TilesDivide(h: Transform, n: nat)
    requires n % h.block == 0 && h.block % TILE == 0
    ensures n % TILE == 0
  {
    Arith.DivMulBounds(n, h.block);
    Arith.DivMulBounds(h.block, TILE);
    var a, b := n / h.block, h.block / TILE;
    assert n == a * (b * TILE) == (a * b) * TILE;
    Arith.MulMod(a * b, TILE);
  }

  method FinishRow(result: array2<real>, out: array2<real>, x: Mat, w: Weight, h: Transform, m: nat)
    requires result != out && result.Length0 == out.Length0 && result.Length1 == out.Length1 == w.cols && m < out.Length0
    requires w.rows % h.block == 0 && w.cols % h.block == 0
    requires forall n: nat :: n < w.cols ==> out[m, n] == Accumulated(x, w, h)(m, n)
    modifies result
    ensures forall i, n :: 0 <= i < result.Length0 && 0 <= n < w.cols ==> result[i, n] == if i == m then Dense(x, w, h, m, n) else old(result[i, n])
  {
    var n := 0;
    while n < w.cols
      invariant 0 <= n <= w.cols
      invariant forall i, j :: 0 <= i < result.Length0 && 0 <= j < w.cols ==>
                  result[i, j] == if i == m && j < n then Dense(x, w, h, m, j) else old(result[i, j])
    {
      var s := FinishEntry(out, Accumulated(x, w, h), h, m, n);
      StreamedIsDense(x, w, h, m, n);
      result[m, n] := s * w.svh(n);
      n := n + 1;
    }
  }

  /** The tile loops. */
  method Accumulate(xh: Mat, count: nat, w: Weight) returns (out: array2<real>)
    requires w.rows % TILE == 0 && w.cols % TILE == 0
    ensures fresh(out) && out.Length0 == count && out.Length1 == w.cols
    ensures forall m, n :: 0 <= m < count && 0 <= n < w.cols ==> out[m, n] == Partial(xh, Inner(w), m, n, w.rows)
  {
    out := new real[count, w.cols]((_, _) => 0.0);
    StreamRows(out, xh, w);
  }

  method StreamRows(out: array2<real>, xh: Mat, w: Weight)
    requires w.rows % TILE == 0 && w.cols % TILE == 0 && out.Length1 == w.cols
    requires forall m, n :: 0 <= m < out.Length0 && 0 <= n < w.cols ==> out[m, n] == 0.0
    modifies out
    ensures forall m, n :: 0 <= m < out.Length0 && 0 <= n < w.cols ==> out[m, n] == Partial(xh, Inner(w), m, n, w.rows)
  {
    Arith.DivMulBounds(w.rows, TILE);
    var tk := 0;
    while tk < w.rows / TILE
      invariant 0 <= tk <= w.rows / TILE
      invariant forall m, n :: 0 <= m < out.Length0 && 0 <= n < w.cols ==> out[m, n] == Partial(xh, Inner(w), m, n, tk * TILE)
    {
      StreamTileRow(out, xh, w, tk);
      tk := tk + 1;
    }
  }
}
