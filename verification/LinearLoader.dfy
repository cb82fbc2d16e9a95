/** Loading one dense EXL3 linear of overlay/exl3.py (Exl3LinearMethod): checkpoint parts
    arrive in any order, are cut to this rank's share and copied into staging tensors;
    the build step slices them out again. Matrices are kept as the sequence of slices
    along the dimension the loader indexes: the trellis by output-tile column, the BF16
    weight by row. */
module LinearLoader {
  import opened Common
  import Arith

  datatype Kind = Trellis | Suh | Svh | Weight | Mcg | Mul1

  /** One checkpoint tensor; `T` is a packed trellis tile. */
  datatype Part<T> =
    | TrellisPart(height: nat, cols: seq<seq<T>>)
    | SuhPart(scales: seq<real>)
    | SvhPart(signs: seq<real>)
    | WeightPart(rows: seq<seq<real>>)
    | McgPart(mcg: int)
    | Mul1Part(mul1: int)

  function KindOf<T>(p: Part<T>): Kind {
    match p
    case TrellisPart(_, _) => Trellis
    case SuhPart(_) => Suh
    case SvhPart(_) => Svh
    case WeightPart(_) => Weight
    case McgPart(_) => Mcg
    case Mul1Part(_) => Mul1
  }

  datatype Fault = NegativeShard | UnsortedShards | BadTail | ThreeWay | UnalignedTiles | BadShard | NotDivisible | ShapeMismatch | PackedForBf16 | BadMarker(shard: nat) | Missing

  datatype Result<+V> = Ok(value: V) | Err(fault: Fault)

  /** The layer as `create_weights` fixes it. */
  datatype Geometry = Geometry(sizes: seq<nat>, bf16: seq<nat>, rowParallel: bool, rank: nat, tp: nat,
                               replicated: set<nat>, inSize: nat)

  predicate Distinct(s: seq<nat>) { forall i, j :: 0 <= i < j < |s| ==> s[i] != s[j] }

  predicate TailInRange(g: Geometry) { forall j :: 0 <= j < |g.bf16| ==> g.bf16[j] < |g.sizes| }

  ghost predicate ValidGeometry(g: Geometry) {
    && g.tp >= 1 && g.rank < g.tp && Distinct(g.bf16)
    && TailInRange(g)
    && (forall i :: 0 <= i < |g.sizes| && i !in g.bf16 ==> g.sizes[i] % 16 == 0 && g.inSize % 16 == 0)
  }

  function SumOf(s: seq<nat>): nat { if s == [] then 0 else s[0] + SumOf(s[1..]) }

  /** The geometry checks of `create_weights`. A column layer whose partition already
      has the full output is replicated: it loads unsharded whatever the world size. */
  function Create(sizes: seq<nat>, bf16: seq<nat>, rowParallel: bool, rank: nat, tp: nat, replicated: set<nat>,
                  inSize: nat, outputSize: nat): Result<Geometry>
  {
    if bf16 != [] && bf16[|bf16| - 1] + 1 != |sizes| then Err(BadTail)
    else if tp == 3 then Err(ThreeWay)
    else
      var whole := !rowParallel && tp > 1 && SumOf(sizes) == outputSize;
      if exists i :: 0 <= i < |sizes| && i !in bf16 && (inSize % 16 != 0 || sizes[i] % 16 != 0) then Err(UnalignedTiles)
      else Ok(Geometry(sizes, bf16, rowParallel, if whole then 0 else rank, if whole then 1 else tp, replicated, inSize))
  }

  predicate Ascends(s: seq<int>) { forall i, j :: 0 <= i < j < |s| ==> s[i] <= s[j] }

  predicate Contiguous(s: seq<int>) { forall j :: 0 <= j < |s| ==> s[j] == s[0] + j }

  /** The configuration's check of a declared BF16 shard list. */
  function CheckShards(raw: seq<int>): Result<seq<nat>> {
    if exists j :: 0 <= j < |raw| && raw[j] < 0 then Err(NegativeShard)
    else if !Ascends(raw) || !Contiguous(raw) then Err(UnsortedShards)
    else Ok(seq(|raw|, j requires 0 <= j < |raw| => raw[j]))
  }

  /** A layer from its configuration: the list is checked when the configuration is read,
      the rest when the weights are created. */
  function Declare(raw: seq<int>, sizes: seq<nat>, rowParallel: bool, rank: nat, tp: nat, replicated: set<nat>,
                   inSize: nat, outputSize: nat): Result<Geometry>
  {
    match CheckShards(raw)
    case Err(f) => Err(f)
    case Ok(bf16) => Create(sizes, bf16, rowParallel, rank, tp, replicated, inSize, outputSize)
  }

  /** The declared BF16 shards are the last ones, ascending. */
  predicate IsTail(g: Geometry) {
    |g.bf16| <= |g.sizes| && forall j :: 0 <= j < |g.bf16| ==> g.bf16[j] == |g.sizes| - |g.bf16| + j
  }

  /** Every accepted layer is valid, and its BF16 shards are the ascending tail. */
  lemma DeclaredIsValid(raw: seq<int>, sizes: seq<nat>, rowParallel: bool, rank: nat, tp: nat, replicated: set<nat>, inSize: nat, outputSize: nat)
    requires rank < tp
    requires Declare(raw, sizes, rowParallel, rank, tp, replicated, inSize, outputSize).Ok?
    ensures var g := Declare(raw, sizes, rowParallel, rank, tp, replicated, inSize, outputSize).value;
            ValidGeometry(g) && IsTail(g) && g.bf16 == raw
  {
    var g := Declare(raw, sizes, rowParallel, rank, tp, replicated, inSize, outputSize).value;
    if raw != [] {
      assert g.bf16[|raw| - 1] == raw[0] + (|raw| - 1) == |sizes| - 1;
      assert raw[0] >= 0;
    }
  }

  /** The two guards refuse every list but an ascending tail: 0 and 2 of three shards, the
      right ones out of order, a gap, a run that stops short. */
  lemma OnlyTailsAreAccepted(raw: seq<int>, sizes: seq<nat>, rowParallel: bool, rank: nat, tp: nat, replicated: set<nat>, inSize: nat, outputSize: nat)
    requires tp != 3 && inSize % 16 == 0 && forall i :: 0 <= i < |sizes| ==> sizes[i] % 16 == 0
    ensures Declare(raw, sizes, rowParallel, rank, tp, replicated, inSize, outputSize).Ok?
            <==> |raw| <= |sizes| && forall j :: 0 <= j < |raw| ==> raw[j] == |sizes| - |raw| + j
  {
    var n, m := |sizes|, |raw|;
    if Declare(raw, sizes, rowParallel, rank, tp, replicated, inSize, outputSize).Ok? && m > 0 {
      assert CheckShards(raw).value[m - 1] == raw[m - 1] == raw[0] + (m - 1);
      assert raw[0] >= 0;
    }
    if m <= n && forall j :: 0 <= j < m ==> raw[j] == n - m + j {
      assert Ascends(raw) && Contiguous(raw);
      assert CheckShards(raw).Ok?;
      if m > 0 { assert CheckShards(raw).value[m - 1] == n - 1; }
    }
  }

  /** A replicated layer takes every packed part whole, on every rank. */
  lemma ReplicatedTakesWhole<T>(sizes: seq<nat>, bf16: seq<nat>, rank: nat, tp: nat, replicated: set<nat>, inSize: nat, i: nat, p: Part<T>)
    requires rank < tp && i < |sizes| && WellFormed(p) && !p.WeightPart?
    requires Create(sizes, bf16, false, rank, tp, replicated, inSize, SumOf(sizes)).Ok?
    ensures Share(Create(sizes, bf16, false, rank, tp, replicated, inSize, SumOf(sizes)).value, i, p) == Ok(p)
  {
  }

  // ----- this rank's share -----

  function EffRank(g: Geometry, i: nat): nat { if i in g.replicated then 0 else g.rank }

  function EffTp(g: Geometry, i: nat): nat { if i in g.replicated then 1 else g.tp }

  /** `_narrow_tp` on the sliced dimension. */
  function Narrow<X>(s: seq<X>, rank: nat, tp: nat): Result<seq<X>>
    requires tp >= 1 && rank < tp
  {
    if tp <= 1 then Ok(s)
    else if |s| % tp != 0 then Err(NotDivisible)
    else
      Arith.DivMulBounds(|s|, tp);
      Piece(s, |s| / tp, rank, tp)
  }

  function Piece<X>(s: seq<X>, chunk: nat, rank: nat, tp: nat): Result<seq<X>>
    requires rank < tp && chunk * tp <= |s|
  {
    Arith.MulMono(chunk, rank + 1, tp);
    Arith.OneMore(rank, chunk);
    Ok(s[chunk * rank..chunk * rank + chunk])
  }

  predicate Rectangular<X>(height: nat, cols: seq<seq<X>>) { forall c :: 0 <= c < |cols| ==> |cols[c]| == height }

  /** Narrow every column: the trellis of a row-parallel layer. */
  function NarrowColumns<T>(height: nat, cols: seq<seq<T>>, rank: nat, tp: nat): Result<Part<T>>
    requires tp >= 1 && rank < tp && Rectangular(height, cols)
  {
    if tp <= 1 then Ok(TrellisPart(height, cols))
    else if height % tp != 0 then Err(NotDivisible)
    else Ok(TrellisPart(height / tp, seq(|cols|, c requires 0 <= c < |cols| => Window(cols[c], height / tp, rank, tp))))
  }

  function Window<X>(s: seq<X>, chunk: nat, rank: nat, tp: nat): (w: seq<X>)
    requires tp >= 1 && rank < tp && |s| / tp == chunk
    ensures |w| == chunk
  {
    Arith.DivMulBounds(|s|, tp);
    Arith.MulMono(chunk, rank + 1, tp);
    Arith.OneMore(rank, chunk);
    s[chunk * rank..chunk * rank + chunk]
  }

  predicate WellFormed<T>(p: Part<T>) { p.TrellisPart? ==> Rectangular(p.height, p.cols) }

  /** This rank's share of a checkpoint part of shard `i`. */
  function Share<T>(g: Geometry, i: nat, p: Part<T>): Result<Part<T>>
    requires g.tp >= 1 && g.rank < g.tp && i < |g.sizes| && WellFormed(p)
  {
    var rank, tp := EffRank(g, i), EffTp(g, i);
    match p
    case TrellisPart(h, cols) =>
      if g.rowParallel then NarrowColumns(h, cols, rank, tp)
      else (match Narrow(cols, rank, tp) case Ok(c) => Ok(TrellisPart(h, c)) case Err(f) => Err(f))
    case SuhPart(s) =>
      if g.rowParallel then (match Narrow(s, rank, tp) case Ok(c) => Ok(SuhPart(c)) case Err(f) => Err(f)) else Ok(p)
    case SvhPart(s) =>
      if g.rowParallel then Ok(p) else (match Narrow(s, rank, tp) case Ok(c) => Ok(SvhPart(c)) case Err(f) => Err(f))
    case WeightPart(rows) =>
      if |rows| == g.sizes[i] then Ok(p)
      else if !g.rowParallel && tp > 1 && |rows| == g.sizes[i] * tp then
        Arith.MulMono(g.sizes[i], rank + 1, tp);
        Arith.OneMore(rank, g.sizes[i]);
        Ok(WeightPart(rows[rank * g.sizes[i]..(rank + 1) * g.sizes[i]]))
      else Err(ShapeMismatch)
    case McgPart(_) => Ok(p)
    case Mul1Part(_) => Ok(p)
  }

  // ----- the staging tensors -----

  datatype Params<T> = Params(trellis: seq<seq<T>>, suh: seq<seq<real>>, svh: seq<real>, weight: seq<seq<real>>,
                              mcg: seq<int>, mul1: seq<int>, loaded: set<(nat, Kind)>)

  function TilesOf(g: Geometry, i: nat): nat
    requires i < |g.sizes|
  {
    if i in g.bf16 then 0 else g.sizes[i] / 16
  }

  /** First trellis column of shard `i`: BF16 shards own none. */
  function TileStart(g: Geometry, i: nat): nat
    requires i <= |g.sizes|
  {
    if i == 0 then 0 else TileStart(g, i - 1) + TilesOf(g, i - 1)
  }

  /** First output of shard `i`, BF16 shards included. */
  function OutStart(g: Geometry, i: nat): nat
    requires i <= |g.sizes|
  {
    if i == 0 then 0 else OutStart(g, i - 1) + g.sizes[i - 1]
  }

  /** First row of the `j`-th BF16 shard. */
  function RowStart(g: Geometry, j: nat): nat
    requires j <= |g.bf16| && TailInRange(g)
  {
    if j == 0 then 0 else RowStart(g, j - 1) + g.sizes[g.bf16[j - 1]]
  }

  function IndexIn(s: seq<nat>, x: nat): (j: nat)
    requires x in s
    ensures j < |s| && s[j] == x
  {
    if s[0] == x then 0 else 1 + IndexIn(s[1..], x)
  }

  ghost predicate Shaped<T>(g: Geometry, p: Params<T>)
    requires ValidGeometry(g)
  {
    && |p.trellis| == TileStart(g, |g.sizes|) && |p.svh| == OutStart(g, |g.sizes|)
    && |p.weight| == RowStart(g, |g.bf16|)
    && |p.suh| == |p.mcg| == |p.mul1| == |g.sizes|
  }

  /** Copy `src` over `dst` from index `at`. */
  function Put<X>(dst: seq<X>, at: nat, src: seq<X>): (r: seq<X>)
    requires at + |src| <= |dst|
    ensures |r| == |dst|
  {
    dst[..at] + src + dst[at + |src|..]
  }

  lemma {:induction false} TileStartMonotone(g: Geometry, i: nat, j: nat)
    requires i <= j <= |g.sizes|
    ensures TileStart(g, i) <= TileStart(g, j) && OutStart(g, i) <= OutStart(g, j)
  {
    if i < j {
      TileStartMonotone(g, i, j - 1);
    }
  }

  lemma {:induction false} RowStartMonotone(g: Geometry, i: nat, j: nat)
    requires i <= j <= |g.bf16| && TailInRange(g)
    ensures RowStart(g, i) <= RowStart(g, j)
  {
    if i < j {
      RowStartMonotone(g, i, j - 1);
    }
  }

  /** Which parts a shard can hold. */
  predicate Applies(g: Geometry, i: nat, k: Kind) {
    match k
    case Weight => i in g.bf16
    case Mcg => true
    case Mul1 => true
    case _ => i !in g.bf16
  }

  /** First staging index and length of a part. */
  function Slot(g: Geometry, i: nat, k: Kind): (nat, nat)
    requires i < |g.sizes| && Applies(g, i, k) && TailInRange(g)
  {
    match k
    case Trellis => (TileStart(g, i), g.sizes[i] / 16)
    case Svh => (OutStart(g, i), g.sizes[i])
    case Weight => (RowStart(g, IndexIn(g.bf16, i)), g.sizes[i])
    case _ => (i, 1)
  }

  function Room<T>(p: Params<T>, k: Kind): nat {
    match k
    case Trellis => |p.trellis|
    case Suh => |p.suh|
    case Svh => |p.svh|
    case Weight => |p.weight|
    case Mcg => |p.mcg|
    case Mul1 => |p.mul1|
  }

  lemma SlotFits<T>(g: Geometry, p: Params<T>, i: nat, k: Kind)
    requires ValidGeometry(g) && Shaped(g, p) && i < |g.sizes| && Applies(g, i, k)
    ensures Slot(g, i, k).0 + Slot(g, i, k).1 <= Room(p, k)
  {
    TileStartMonotone(g, i + 1, |g.sizes|);
    if k.Weight? {
      RowStartMonotone(g, IndexIn(g.bf16, i) + 1, |g.bf16|);
    }
  }

  /** Slots of one kind never overlap. */
  lemma SlotsDisjoint(g: Geometry, i: nat, j: nat, k: Kind)
    requires ValidGeometry(g) && i < |g.sizes| && j < |g.sizes| && i != j && Applies(g, i, k) && Applies(g, j, k)
    ensures var a, b := Slot(g, i, k), Slot(g, j, k); a.0 + a.1 <= b.0 || b.0 + b.1 <= a.0
  {
    if k.Weight? {
      var x, y := IndexIn(g.bf16, i), IndexIn(g.bf16, j);
      if x < y { RowStartMonotone(g, x + 1, y); } else { RowStartMonotone(g, y + 1, x); }
    } else if i < j {
      TileStartMonotone(g, i + 1, j);
    } else {
      TileStartMonotone(g, j + 1, i);
    }
  }

  lemma PutReads<X>(dst: seq<X>, at: nat, src: seq<X>)
    requires at + |src| <= |dst|
    ensures Put(dst, at, src)[at..at + |src|] == src
  {
  }

  lemma PutElsewhere<X>(dst: seq<X>, at: nat, src: seq<X>, from: nat, len: nat)
    requires at + |src| <= |dst| && from + len <= |dst| && (from + len <= at || at + |src| <= from)
    ensures Put(dst, at, src)[from..from + len] == dst[from..from + len]
  {
  }

  /** Read the part of kind `k` of shard `i` back out of the staging tensors. */
  function Held<T>(g: Geometry, p: Params<T>, i: nat, k: Kind): Part<T>
    requires i < |g.sizes| && Applies(g, i, k) && TailInRange(g)
    requires Slot(g, i, k).0 + Slot(g, i, k).1 <= Room(p, k)
  {
    var s := Slot(g, i, k);
    match k
    case Trellis => TrellisPart(g.inSize / 16, p.trellis[s.0..s.0 + s.1])
    case Suh => SuhPart(p.suh[i])
    case Svh => SvhPart(p.svh[s.0..s.0 + s.1])
    case Weight => WeightPart(p.weight[s.0..s.0 + s.1])
    case Mcg => McgPart(p.mcg[i])
    case Mul1 => Mul1Part(p.mul1[i])
  }

  /** Does a share have the destination's shape? */
  predicate FitsSlot<T>(g: Geometry, i: nat, p: Part<T>)
    requires i < |g.sizes|
  {
    match p
    case TrellisPart(h, cols) => h == g.inSize / 16 && |cols| == g.sizes[i] / 16
    case SuhPart(s) => |s| == g.inSize
    case SvhPart(s) => |s| == g.sizes[i]
    case WeightPart(rows) => |rows| == g.sizes[i] && forall r :: 0 <= r < |rows| ==> |rows[r]| == g.inSize
    case _ => true
  }

  function Store<T>(g: Geometry, p: Params<T>, i: nat, q: Part<T>): (r: Params<T>)
    requires i < |g.sizes| && Applies(g, i, KindOf(q)) && TailInRange(g)
    requires Slot(g, i, KindOf(q)).0 + Slot(g, i, KindOf(q)).1 <= Room(p, KindOf(q)) && FitsSlot(g, i, q)
  {
    var at := Slot(g, i, KindOf(q)).0;
    var done := p.loaded + {(i, KindOf(q))};
    match q
    case TrellisPart(_, cols) => p.(trellis := Put(p.trellis, at, cols), loaded := done)
    case SuhPart(s) => p.(suh := p.suh[i := s], loaded := done)
    case SvhPart(s) => p.(svh := Put(p.svh, at, s), loaded := done)
    case WeightPart(rows) => p.(weight := Put(p.weight, at, rows), loaded := done)
    case McgPart(v) => p.(mcg := p.mcg[i := v], loaded := done)
    case Mul1Part(v) => p.(mul1 := p.mul1[i := v], loaded := done)
  }

  /** `_load_exl3`: the new staging tensors, or the error that leaves them alone. */
  function Load<T>(g: Geometry, p: Params<T>, i: int, part: Part<T>): Result<Params<T>>
    requires ValidGeometry(g) && Shaped(g, p) && WellFormed(part)
  {
    if !(0 <= i < |g.sizes|) then Err(BadShard)
    else if part.WeightPart? && i !in g.bf16 then Ok(p)
    else if !Applies(g, i, KindOf(part)) then Err(PackedForBf16)
    else
      match Share(g, i, part)
      case Err(f) => Err(f)
      case Ok(q) => if FitsSlot(g, i, q) then SlotFits(g, p, i, KindOf(q)); Ok(Store(g, p, i, q)) else Err(ShapeMismatch)
  }

  /** The stale BF16 copy of a packed shard is ignored. */
  predicate Stale<T>(g: Geometry, i: int, part: Part<T>) { part.WeightPart? && i !in g.bf16 }

  lemma StoreKeepsShape<T>(g: Geometry, p: Params<T>, i: nat, q: Part<T>)
    requires ValidGeometry(g) && Shaped(g, p) && i < |g.sizes| && Applies(g, i, KindOf(q)) && FitsSlot(g, i, q)
    ensures Slot(g, i, KindOf(q)).0 + Slot(g, i, KindOf(q)).1 <= Room(p, KindOf(q))
    ensures Shaped(g, Store(g, p, i, q))
  {
    SlotFits(g, p, i, KindOf(q));
  }

  /** What was stored is what is read back. */
  lemma StoreReads<T>(g: Geometry, p: Params<T>, i: nat, q: Part<T>)
    requires ValidGeometry(g) && Shaped(g, p) && i < |g.sizes| && Applies(g, i, KindOf(q)) && FitsSlot(g, i, q)
    ensures Slot(g, i, KindOf(q)).0 + Slot(g, i, KindOf(q)).1 <= Room(p, KindOf(q)) == Room(Store(g, p, i, q), KindOf(q))
    ensures Held(g, Store(g, p, i, q), i, KindOf(q)) == q
  {
    SlotFits(g, p, i, KindOf(q));
    var at := Slot(g, i, KindOf(q)).0;
    match q {
      case TrellisPart(_, cols) => PutReads(p.trellis, at, cols);
      case SvhPart(s) => PutReads(p.svh, at, s);
      case WeightPart(rows) => PutReads(p.weight, at, rows);
      case _ =>
    }
  }

  lemma TrellisFrame<T>(g: Geometry, p: Params<T>, i: nat, q: Part<T>, j: nat)
    requires ValidGeometry(g) && Shaped(g, p) && i < |g.sizes| && q.TrellisPart? && Applies(g, i, Trellis) && FitsSlot(g, i, q)
    requires j < |g.sizes| && Applies(g, j, Trellis) && j != i
    ensures && Slot(g, i, Trellis).0 + Slot(g, i, Trellis).1 <= Room(p, Trellis) == Room(Store(g, p, i, q), Trellis)
            && Slot(g, j, Trellis).0 + Slot(g, j, Trellis).1 <= Room(p, Trellis)
            && Held(g, Store(g, p, i, q), j, Trellis) == Held(g, p, j, Trellis)
  {
    SlotFits(g, p, i, Trellis);
    SlotFits(g, p, j, Trellis);
    SlotsDisjoint(g, i, j, Trellis);
    PutElsewhere(p.trellis, Slot(g, i, Trellis).0, q.cols, Slot(g, j, Trellis).0, Slot(g, j, Trellis).1);
  }

  lemma SvhFrame<T>(g: Geometry, p: Params<T>, i: nat, q: Part<T>, j: nat)
    requires ValidGeometry(g) && Shaped(g, p) && i < |g.sizes| && q.SvhPart? && Applies(g, i, Svh) && FitsSlot(g, i, q)
    requires j < |g.sizes| && Applies(g, j, Svh) && j != i
    ensures && Slot(g, i, Svh).0 + Slot(g, i, Svh).1 <= Room(p, Svh) == Room(Store(g, p, i, q), Svh)
            && Slot(g, j, Svh).0 + Slot(g, j, Svh).1 <= Room(p, Svh)
            && Held(g, Store(g, p, i, q), j, Svh) == Held(g, p, j, Svh)
  {
    SlotFits(g, p, i, Svh);
    SlotFits(g, p, j, Svh);
    SlotsDisjoint(g, i, j, Svh);
    PutElsewhere(p.svh, Slot(g, i, Svh).0, q.signs, Slot(g, j, Svh).0, Slot(g, j, Svh).1);
  }

  lemma WeightFrame<T>(g: Geometry, p: Params<T>, i: nat, q: Part<T>, j: nat)
    requires ValidGeometry(g) && Shaped(g, p) && i < |g.sizes| && q.WeightPart? && Applies(g, i, Weight) && FitsSlot(g, i, q)
    requires j < |g.sizes| && Applies(g, j, Weight) && j != i
    ensures && Slot(g, i, Weight).0 + Slot(g, i, Weight).1 <= Room(p, Weight) == Room(Store(g, p, i, q), Weight)
            && Slot(g, j, Weight).0 + Slot(g, j, Weight).1 <= Room(p, Weight)
            && Held(g, Store(g, p, i, q), j, Weight) == Held(g, p, j, Weight)
  {
    SlotFits(g, p, i, Weight);
    SlotFits(g, p, j, Weight);
    SlotsDisjoint(g, i, j, Weight);
    PutElsewhere(p.weight, Slot(g, i, Weight).0, q.rows, Slot(g, j, Weight).0, Slot(g, j, Weight).1);
  }

  lemma StoreSameKind<T>(g: Geometry, p: Params<T>, i: nat, q: Part<T>, j: nat)
    requires ValidGeometry(g) && Shaped(g, p) && i < |g.sizes| && Applies(g, i, KindOf(q)) && FitsSlot(g, i, q)
    requires j < |g.sizes| && Applies(g, j, KindOf(q)) && j != i
    ensures var k := KindOf(q);
            && Slot(g, i, k).0 + Slot(g, i, k).1 <= Room(p, k) && Slot(g, j, k).0 + Slot(g, j, k).1 <= Room(p, k) == Room(Store(g, p, i, q), k)
            && Held(g, Store(g, p, i, q), j, k) == Held(g, p, j, k)
  {
    match KindOf(q) {
      case Trellis => TrellisFrame(g, p, i, q, j);
      case Svh => SvhFrame(g, p, i, q, j);
      case Weight => WeightFrame(g, p, i, q, j);
      case _ => SlotFits(g, p, i, KindOf(q));
    }
  }

  /** Storing one part leaves every other part readable as before. */
  lemma StoreElsewhere<T>(g: Geometry, p: Params<T>, i: nat, q: Part<T>, j: nat, k: Kind)
    requires ValidGeometry(g) && Shaped(g, p) && i < |g.sizes| && Applies(g, i, KindOf(q)) && FitsSlot(g, i, q)
    requires j < |g.sizes| && Applies(g, j, k) && (j, k) != (i, KindOf(q))
    ensures Slot(g, i, KindOf(q)).0 + Slot(g, i, KindOf(q)).1 <= Room(p, KindOf(q))
    ensures Slot(g, j, k).0 + Slot(g, j, k).1 <= Room(p, k) == Room(Store(g, p, i, q), k)
    ensures Held(g, Store(g, p, i, q), j, k) == Held(g, p, j, k)
  {
    if k == KindOf(q) {
      StoreSameKind(g, p, i, q, j);
    } else {
      SlotFits(g, p, i, KindOf(q));
      SlotFits(g, p, j, k);
    }
  }

  // ----- any order of arrival -----

  datatype Arrival<T> = Arrival(shard: int, part: Part<T>)

  /** Every part of the checkpoint, by shard and kind. */
  type Checkpoint<T> = (nat, Kind) -> Part<T>

  /** The arrival delivers the checkpoint's own tensor, cut as this rank expects it. */
  ghost predicate From<T>(g: Geometry, ck: Checkpoint<T>, a: Arrival<T>)
    requires g.tp >= 1 && g.rank < g.tp
  {
    && 0 <= a.shard < |g.sizes| && WellFormed(a.part) && a.part == ck(a.shard, KindOf(a.part))
    && (Applies(g, a.shard, KindOf(a.part)) ==>
          Share(g, a.shard, a.part).Ok? && FitsSlot(g, a.shard, Share(g, a.shard, a.part).value))
    && (Applies(g, a.shard, KindOf(a.part)) || a.part.WeightPart?)
  }

  function LoadAll<T>(g: Geometry, p: Params<T>, arrivals: seq<Arrival<T>>): Result<Params<T>>
    requires ValidGeometry(g) && Shaped(g, p) && forall k :: 0 <= k < |arrivals| ==> WellFormed(arrivals[k].part)
    decreases |arrivals|
  {
    if arrivals == [] then Ok(p)
    else
      match Load(g, p, arrivals[0].shard, arrivals[0].part)
      case Err(f) => Err(f)
      case Ok(p2) => LoadKeepsShape(g, p, arrivals[0].shard, arrivals[0].part); LoadAll(g, p2, arrivals[1..])
  }

  lemma LoadKeepsShape<T>(g: Geometry, p: Params<T>, i: int, part: Part<T>)
    requires ValidGeometry(g) && Shaped(g, p) && WellFormed(part) && Load(g, p, i, part).Ok?
    ensures Shaped(g, Load(g, p, i, part).value)
  {
    if 0 <= i < |g.sizes| && !Stale(g, i, part) {
      StoreKeepsShape(g, p, i, Share(g, i, part).value);
    }
  }

  /** A loaded part is this rank's share of the checkpoint's tensor. */
  ghost predicate Faithful<T>(g: Geometry, ck: Checkpoint<T>, p: Params<T>, i: nat, k: Kind)
    requires ValidGeometry(g) && Shaped(g, p)
  {
    && i < |g.sizes| && Applies(g, i, k) && KindOf(ck(i, k)) == k && WellFormed(ck(i, k))
    && Slot(g, i, k).0 + Slot(g, i, k).1 <= Room(p, k)
    && Share(g, i, ck(i, k)) == Ok(Held(g, p, i, k))
  }

  ghost predicate AllFaithful<T>(g: Geometry, ck: Checkpoint<T>, p: Params<T>)
    requires ValidGeometry(g) && Shaped(g, p)
  {
    forall i, k :: (i, k) in p.loaded ==> Faithful(g, ck, p, i, k)
  }

  lemma StoreFaithful<T>(g: Geometry, ck: Checkpoint<T>, p: Params<T>, i: nat, q: Part<T>, j: nat, k: Kind)
    requires ValidGeometry(g) && Shaped(g, p) && i < |g.sizes| && Applies(g, i, KindOf(q)) && FitsSlot(g, i, q)
    requires KindOf(ck(i, KindOf(q))) == KindOf(q) && WellFormed(ck(i, KindOf(q))) && Share(g, i, ck(i, KindOf(q))) == Ok(q)
    requires (j, k) == (i, KindOf(q)) || Faithful(g, ck, p, j, k)
    ensures Slot(g, i, KindOf(q)).0 + Slot(g, i, KindOf(q)).1 <= Room(p, KindOf(q)) && Shaped(g, Store(g, p, i, q))
    ensures Faithful(g, ck, Store(g, p, i, q), j, k)
  {
    StoreKeepsShape(g, p, i, q);
    StoreReads(g, p, i, q);
    if (j, k) != (i, KindOf(q)) {
      StoreElsewhere(g, p, i, q, j, k);
    }
  }

  lemma ShareKind<T>(g: Geometry, i: nat, p: Part<T>)
    requires g.tp >= 1 && g.rank < g.tp && i < |g.sizes| && WellFormed(p) && Share(g, i, p).Ok?
    ensures KindOf(Share(g, i, p).value) == KindOf(p)
  {
  }

  /** Parts that an accepted arrival adds. */
  function Adds<T>(g: Geometry, a: Arrival<T>): set<(nat, Kind)> {
    if a.shard < 0 || Stale(g, a.shard, a.part) then {} else {(a.shard, KindOf(a.part))}
  }

  lemma ArrivalKeeps<T>(g: Geometry, ck: Checkpoint<T>, p: Params<T>, a: Arrival<T>)
    requires ValidGeometry(g) && Shaped(g, p) && AllFaithful(g, ck, p) && From(g, ck, a)
    ensures Load(g, p, a.shard, a.part).Ok? && Shaped(g, Load(g, p, a.shard, a.part).value)
    ensures AllFaithful(g, ck, Load(g, p, a.shard, a.part).value)
    ensures Load(g, p, a.shard, a.part).value.loaded == p.loaded + Adds(g, a)
  {
    LoadKeepsShape(g, p, a.shard, a.part);
    if !Stale(g, a.shard, a.part) {
      var q := Share(g, a.shard, a.part).value;
      var p2 := Load(g, p, a.shard, a.part).value;
      ShareKind(g, a.shard, a.part);
      forall i, k | (i, k) in p2.loaded ensures Faithful(g, ck, p2, i, k) {
        StoreFaithful(g, ck, p, a.shard, q, i, k);
      }
    }
  }

  function AddsAll<T>(g: Geometry, arrivals: seq<Arrival<T>>): set<(nat, Kind)> {
    if arrivals == [] then {} else Adds(g, arrivals[0]) + AddsAll(g, arrivals[1..])
  }

  /** Main theorem: whatever the order and however often parts repeat, after loading
      every staged part is this rank's share of its own checkpoint tensor. */
  lemma {:induction false} AnyOrderIsFaithful<T>(g: Geometry, ck: Checkpoint<T>, p: Params<T>, arrivals: seq<Arrival<T>>)
    requires ValidGeometry(g) && Shaped(g, p) && AllFaithful(g, ck, p)
    requires forall k :: 0 <= k < |arrivals| ==> From(g, ck, arrivals[k]) && WellFormed(arrivals[k].part)
    ensures LoadAll(g, p, arrivals).Ok? && Shaped(g, LoadAll(g, p, arrivals).value)
    ensures AllFaithful(g, ck, LoadAll(g, p, arrivals).value)
    ensures LoadAll(g, p, arrivals).value.loaded == p.loaded + AddsAll(g, arrivals)
    decreases |arrivals|
  {
    if arrivals != [] {
      assert From(g, ck, arrivals[0]);
      ArrivalKeeps(g, ck, p, arrivals[0]);
      forall k | 0 <= k < |arrivals[1..]| ensures From(g, ck, arrivals[1..][k]) && WellFormed(arrivals[1..][k].part) {
        assert arrivals[1..][k] == arrivals[k + 1];
      }
      AnyOrderIsFaithful(g, ck, Load(g, p, arrivals[0].shard, arrivals[0].part).value, arrivals[1..]);
    }
  }

  // ----- ranks together hold the checkpoint -----

  /** The slices of ranks 0 .. n-1 put side by side. */
  function Glue<X>(slice: nat -> seq<X>, n: nat): seq<X> {
    if n == 0 then [] else Glue(slice, n - 1) + slice(n - 1)
  }

  lemma {:induction false} PiecesRecombine<X>(s: seq<X>, chunk: nat, slice: nat -> seq<X>, n: nat)
    requires chunk * n <= |s|
    requires forall r :: 0 <= r < n ==> chunk * r + chunk <= |s| && slice(r) == s[chunk * r..chunk * r + chunk]
    ensures Glue(slice, n) == s[..chunk * n]
  {
    if n > 0 {
      Arith.OneMore(n - 1, chunk);
      PiecesRecombine(s, chunk, slice, n - 1);
      assert slice(n - 1) == s[chunk * (n - 1)..chunk * n];
      assert s[..chunk * n] == s[..chunk * (n - 1)] + s[chunk * (n - 1)..chunk * n];
    }
  }

  /** If each rank's narrow succeeds, the ranks' slices are the tensor. */
  lemma NarrowsRecombine<X>(s: seq<X>, tp: nat, slice: nat -> seq<X>)
    requires tp >= 1 && forall r :: 0 <= r < tp ==> Narrow(s, r, tp) == Ok(slice(r))
    ensures Glue(slice, tp) == s
  {
    assert Narrow(s, 0, tp).Ok?;
    if tp == 1 {
      assert Glue(slice, 0) == [];
      assert Glue(slice, 1) == slice(0);
    } else {
      var chunk := |s| / tp;
      Arith.DivMulBounds(|s|, tp);
      assert chunk * tp == |s|;
      forall r | 0 <= r < tp ensures chunk * r + chunk <= |s| && slice(r) == s[chunk * r..chunk * r + chunk] {
        Arith.MulMono(chunk, r + 1, tp);
        Arith.OneMore(r, chunk);
        assert Narrow(s, r, tp) == Ok(slice(r));
      }
      PiecesRecombine(s, chunk, slice, tp);
    }
  }

  /** Rank `r`'s share of a part. */
  function ShareAt<T>(g: Geometry, i: nat, p: Part<T>, r: nat): Result<Part<T>>
    requires i < |g.sizes| && WellFormed(p) && r < g.tp
  {
    Share(g.(rank := r), i, p)
  }

  function ColsAt<T>(g: Geometry, i: nat, p: Part<T>): nat -> seq<seq<T>>
    requires i < |g.sizes| && WellFormed(p)
  {
    (r: nat) => if r < g.tp then (match ShareAt(g, i, p, r) case Ok(TrellisPart(_, c)) => c case _ => []) else []
  }

  function ColumnAt<T>(g: Geometry, i: nat, p: Part<T>, c: nat): nat -> seq<T>
    requires i < |g.sizes| && WellFormed(p)
  {
    (r: nat) => var cols := ColsAt(g, i, p)(r); if c < |cols| then cols[c] else []
  }

  function SignsAt<T>(g: Geometry, i: nat, p: Part<T>): nat -> seq<real>
    requires i < |g.sizes| && WellFormed(p)
  {
    (r: nat) => if r < g.tp then (match ShareAt(g, i, p, r) case Ok(SvhPart(v)) => v case _ => []) else []
  }

  function ScalesAt<T>(g: Geometry, i: nat, p: Part<T>): nat -> seq<real>
    requires i < |g.sizes| && WellFormed(p)
  {
    (r: nat) => if r < g.tp then (match ShareAt(g, i, p, r) case Ok(SuhPart(v)) => v case _ => []) else []
  }

  function RowsAt<T>(g: Geometry, i: nat, p: Part<T>): nat -> seq<seq<real>>
    requires i < |g.sizes| && WellFormed(p)
  {
    (r: nat) => if r < g.tp then (match ShareAt(g, i, p, r) case Ok(WeightPart(v)) => v case _ => []) else []
  }

  ghost predicate EveryRankLoads<T>(g: Geometry, i: nat, p: Part<T>)
    requires i < |g.sizes| && WellFormed(p)
  {
    g.tp >= 1 && i !in g.replicated && forall r :: 0 <= r < g.tp ==> ShareAt(g, i, p, r).Ok?
  }

  /** Main theorem, column-parallel: side by side, the ranks' trellis columns, output
      scales and BF16 rows are the checkpoint's. */
  lemma ColumnSharesRecombine<T>(g: Geometry, i: nat, p: Part<T>)
    requires i < |g.sizes| && WellFormed(p) && !g.rowParallel && EveryRankLoads(g, i, p)
    ensures p.TrellisPart? ==> Glue(ColsAt(g, i, p), g.tp) == p.cols
    ensures p.SvhPart? ==> Glue(SignsAt(g, i, p), g.tp) == p.signs
    ensures p.WeightPart? && (g.sizes[i] * g.tp == |p.rows|) ==> Glue(RowsAt(g, i, p), g.tp) == p.rows
  {
    match p {
      case TrellisPart(h, cols) =>
        forall r | 0 <= r < g.tp ensures Narrow(cols, r, g.tp) == Ok(ColsAt(g, i, p)(r)) { assert ShareAt(g, i, p, r).Ok?; }
        NarrowsRecombine(cols, g.tp, ColsAt(g, i, p));
      case SvhPart(v) =>
        forall r | 0 <= r < g.tp ensures Narrow(v, r, g.tp) == Ok(SignsAt(g, i, p)(r)) { assert ShareAt(g, i, p, r).Ok?; }
        NarrowsRecombine(v, g.tp, SignsAt(g, i, p));
      case WeightPart(rows) =>
        if g.sizes[i] * g.tp == |rows| { WeightSharesRecombine(g, i, p); }
      case _ =>
    }
  }

  lemma WeightSharesRecombine<T>(g: Geometry, i: nat, p: Part<T>)
    requires i < |g.sizes| && p.WeightPart? && !g.rowParallel && EveryRankLoads(g, i, p) && g.sizes[i] * g.tp == |p.rows|
    ensures Glue(RowsAt(g, i, p), g.tp) == p.rows
  {
    var n := g.sizes[i];
    forall r | 0 <= r < g.tp ensures n * r + n <= |p.rows| && RowsAt(g, i, p)(r) == p.rows[n * r..n * r + n] {
      Arith.MulMono(n, r + 1, g.tp);
      Arith.OneMore(r, n);
      assert ShareAt(g, i, p, r).Ok?;
      if |p.rows| == n {
        OneRankOrEmpty(n, g.tp);
      }
    }
    PiecesRecombine(p.rows, n, RowsAt(g, i, p), g.tp);
  }

  lemma OneRankOrEmpty(n: nat, tp: nat)
    requires n * tp == n && tp >= 1
    ensures tp == 1 || n == 0
  {
    if tp > 1 {
      Arith.MulMono(n, 2, tp);
    }
  }

  lemma ColumnShare<T>(g: Geometry, i: nat, p: Part<T>, r: nat, c: nat)
    requires i < |g.sizes| && WellFormed(p) && g.rowParallel && i !in g.replicated && r < g.tp && ShareAt(g, i, p, r).Ok?
    requires p.TrellisPart? && c < |p.cols|
    ensures Narrow(p.cols[c], r, g.tp) == Ok(ColumnAt(g, i, p, c)(r))
  {
    var cols := ShareAt(g, i, p, r).value.cols;
    assert ColsAt(g, i, p)(r) == cols && |cols| == |p.cols|;
    if g.tp > 1 {
      assert cols[c] == Window(p.cols[c], p.height / g.tp, r, g.tp);
    }
  }

  /** Main theorem, row-parallel: each trellis column and the input scales. */
  lemma RowSharesRecombine<T>(g: Geometry, i: nat, p: Part<T>, c: nat)
    requires i < |g.sizes| && WellFormed(p) && g.rowParallel && EveryRankLoads(g, i, p)
    ensures p.TrellisPart? && c < |p.cols| ==> Glue(ColumnAt(g, i, p, c), g.tp) == p.cols[c]
    ensures p.SuhPart? ==> Glue(ScalesAt(g, i, p), g.tp) == p.scales
  {
    match p {
      case TrellisPart(h, cols) =>
        if c < |cols| {
          forall r | 0 <= r < g.tp ensures Narrow(cols[c], r, g.tp) == Ok(ColumnAt(g, i, p, c)(r)) {
            assert ShareAt(g, i, p, r).Ok?;
            ColumnShare(g, i, p, r, c);
          }
          NarrowsRecombine(cols[c], g.tp, ColumnAt(g, i, p, c));
        }
      case SuhPart(v) =>
        forall r | 0 <= r < g.tp ensures Narrow(v, r, g.tp) == Ok(ScalesAt(g, i, p)(r)) { assert ShareAt(g, i, p, r).Ok?; }
        NarrowsRecombine(v, g.tp, ScalesAt(g, i, p));
      case _ =>
    }
  }

  // ----- building the linears -----

  const MCG_MARKER := -877912083
  const MUL1_MARKER := -2082680531

  /** One packed linear as handed to the kernels. */
  datatype Linear<T> = Linear(trellis: seq<seq<T>>, suh: seq<real>, svh: seq<real>, mcg: Option<int>, mul1: Option<int>)

  /** Exactly one codebook marker, with its exact value. */
  predicate GoodMarkers(mcg: int, mul1: int) { (mcg == MCG_MARKER && mul1 == 0) || (mcg == 0 && mul1 == MUL1_MARKER) }

  /** The first packed shard whose markers are wrong. */
  function FirstBad<T>(g: Geometry, p: Params<T>, i: nat): (b: Option<nat>)
    requires |p.mcg| == |p.mul1| == |g.sizes| && i <= |g.sizes|
    ensures b.None? <==> forall j :: i <= j < |g.sizes| && j !in g.bf16 ==> GoodMarkers(p.mcg[j], p.mul1[j])
    ensures b.Some? ==> i <= b.value < |g.sizes| && b.value !in g.bf16 && !GoodMarkers(p.mcg[b.value], p.mul1[b.value])
    decreases |g.sizes| - i
  {
    if i == |g.sizes| then None
    else if i !in g.bf16 && !GoodMarkers(p.mcg[i], p.mul1[i]) then Some(i)
    else FirstBad(g, p, i + 1)
  }

  function Needed(g: Geometry, i: nat): set<(nat, Kind)> {
    if i in g.bf16 then {(i, Weight)} else {(i, Trellis), (i, Suh), (i, Svh)}
  }

  predicate AllLoaded<T>(g: Geometry, p: Params<T>) { forall i :: 0 <= i < |g.sizes| ==> Needed(g, i) <= p.loaded }

  function MarkerOf(v: int): Option<int> { if v != 0 then Some(v) else None }

  /** The linear of packed shard `i`. */
  ghost function LinearOf<T>(g: Geometry, p: Params<T>, i: nat): Option<Linear<T>>
    requires ValidGeometry(g) && Shaped(g, p) && i < |g.sizes|
  {
    if i in g.bf16 then None
    else
      SlotFits(g, p, i, Trellis);
      SlotFits(g, p, i, Svh);
      Some(Linear(Held(g, p, i, Trellis).cols, Held(g, p, i, Suh).scales, Held(g, p, i, Svh).signs,
                  MarkerOf(p.mcg[i]), MarkerOf(p.mul1[i])))
  }

  ghost predicate IsBuilt<T>(g: Geometry, p: Params<T>, r: Result<seq<Option<Linear<T>>>>)
    requires ValidGeometry(g) && Shaped(g, p)
  {
    match FirstBad(g, p, 0)
    case Some(i) => r == Err(BadMarker(i))
    case None =>
      if !AllLoaded(g, p) then r == Err(Missing)
      else r.Ok? && |r.value| == |g.sizes| && forall i :: 0 <= i < |g.sizes| ==> r.value[i] == LinearOf(g, p, i)
  }

  /** Main theorem: once every part arrived, in whatever order, the build gives each
      packed shard its own share of trellis, suh and svh, and the BF16 tail its rows. */
  lemma BuiltIsShare<T>(g: Geometry, ck: Checkpoint<T>, p: Params<T>, arrivals: seq<Arrival<T>>, r: Result<seq<Option<Linear<T>>>>, i: nat)
    requires ValidGeometry(g) && Shaped(g, p) && p.loaded == {} && i < |g.sizes|
    requires forall k :: 0 <= k < |arrivals| ==> From(g, ck, arrivals[k]) && WellFormed(arrivals[k].part)
    requires LoadAll(g, p, arrivals).Ok? && Shaped(g, LoadAll(g, p, arrivals).value) && IsBuilt(g, LoadAll(g, p, arrivals).value, r) && r.Ok?
    ensures WellFormed(ck(i, Trellis)) || i in g.bf16
    ensures i !in g.bf16 ==> WellFormed(ck(i, Suh)) && WellFormed(ck(i, Svh)) && r.value[i].Some?
                             && Share(g, i, ck(i, Trellis)) == Ok(TrellisPart(g.inSize / 16, r.value[i].value.trellis))
                             && Share(g, i, ck(i, Suh)) == Ok(SuhPart(r.value[i].value.suh))
                             && Share(g, i, ck(i, Svh)) == Ok(SvhPart(r.value[i].value.svh))
    ensures i in g.bf16 ==> r.value[i].None? && Faithful(g, ck, LoadAll(g, p, arrivals).value, i, Weight)
  {
    AnyOrderIsFaithful(g, ck, p, arrivals);
    var q := LoadAll(g, p, arrivals).value;
    assert Needed(g, i) <= q.loaded;
    if i in g.bf16 {
      assert (i, Weight) in q.loaded;
    } else {
      assert (i, Trellis) in q.loaded && (i, Suh) in q.loaded && (i, Svh) in q.loaded;
      assert Faithful(g, ck, q, i, Trellis) && Faithful(g, ck, q, i, Suh) && Faithful(g, ck, q, i, Svh);
    }
  }

  /** A part that never arrived is reported: nothing unloaded is ever built. */
  lemma MissingIsReported<T>(g: Geometry, ck: Checkpoint<T>, p: Params<T>, arrivals: seq<Arrival<T>>, r: Result<seq<Option<Linear<T>>>>)
    requires ValidGeometry(g) && Shaped(g, p) && p.loaded == {}
    requires forall k :: 0 <= k < |arrivals| ==> From(g, ck, arrivals[k]) && WellFormed(arrivals[k].part)
    requires LoadAll(g, p, arrivals).Ok? && Shaped(g, LoadAll(g, p, arrivals).value) && IsBuilt(g, LoadAll(g, p, arrivals).value, r)
    ensures r.Ok? ==> forall i :: 0 <= i < |g.sizes| ==> Needed(g, i) <= AddsAll(g, arrivals)
    ensures r == Err(Missing) ==> exists i :: 0 <= i < |g.sizes| && !(Needed(g, i) <= AddsAll(g, arrivals))
  {
    AnyOrderIsFaithful(g, ck, p, arrivals);
  }

  // ----- the order of the forward outputs -----

  /** Packed shards in ascending order: what `forward` concatenates first. */
  function PackedFrom(g: Geometry, i: nat): (r: seq<nat>)
    requires i <= |g.sizes|
    ensures forall x :: x in r <==> i <= x < |g.sizes| && x !in g.bf16
    decreases |g.sizes| - i
  {
    if i == |g.sizes| then [] else if i in g.bf16 then PackedFrom(g, i + 1) else [i] + PackedFrom(g, i + 1)
  }

  /** The BF16 rows follow the packed outputs, in the order of the declaration. */
  function ForwardOrder(g: Geometry): seq<nat> { PackedFrom(g, 0) + g.bf16 }

  predicate InOrder(order: seq<nat>, n: nat) { |order| == n && forall i :: 0 <= i < n ==> order[i] == i }

  lemma {:induction false} PackedPrefix(g: Geometry, k: nat, i: nat)
    requires i <= k <= |g.sizes| && (forall x :: x in g.bf16 <==> k <= x < |g.sizes|)
    ensures |PackedFrom(g, i)| == k - i && forall j :: 0 <= j < k - i ==> PackedFrom(g, i)[j] == i + j
    decreases |g.sizes| - i
  {
    if i < k {
      PackedPrefix(g, k, i + 1);
    } else if PackedFrom(g, i) != [] {
      assert PackedFrom(g, i)[0] in PackedFrom(g, i);
    }
  }

  /** Outputs come out in shard order exactly when the BF16 shards are the ascending
      tail of the list. */
  lemma ForwardInOrder(g: Geometry)
    requires ValidGeometry(g)
    ensures InOrder(ForwardOrder(g), |g.sizes|) <==> IsTail(g)
  {
    var order, n, m := ForwardOrder(g), |g.sizes|, |g.bf16|;
    if IsTail(g) {
      forall x | n - m <= x < n ensures x in g.bf16 { assert g.bf16[x - (n - m)] == x; }
      PackedPrefix(g, n - m, 0);
    }
    if InOrder(order, n) {
      forall j | 0 <= j < m ensures g.bf16[j] == n - m + j { assert order[|PackedFrom(g, 0)| + j] == g.bf16[j]; }
    }
  }

  /** Main theorem: every accepted layer returns its outputs in shard order. */
  lemma AcceptedIsInOrder(raw: seq<int>, sizes: seq<nat>, rowParallel: bool, rank: nat, tp: nat, replicated: set<nat>, inSize: nat, outputSize: nat)
    requires rank < tp
    requires Declare(raw, sizes, rowParallel, rank, tp, replicated, inSize, outputSize).Ok?
    ensures InOrder(ForwardOrder(Declare(raw, sizes, rowParallel, rank, tp, replicated, inSize, outputSize).value), |sizes|)
  {
    DeclaredIsValid(raw, sizes, rowParallel, rank, tp, replicated, inSize, outputSize);
    ForwardInOrder(Declare(raw, sizes, rowParallel, rank, tp, replicated, inSize, outputSize).value);
  }

  // ----- the loader object -----

  class Exl3LinearMethod<T> {
    const g: Geometry
    const trellis: array<seq<T>>
    const suh: array<seq<real>>
    const svh: array<real>
    const weight: array<seq<real>>
    const mcg: array<int>
    const mul1: array<int>
    var loaded: set<(nat, Kind)>

    ghost function Abs(): Params<T>
      reads this, trellis, suh, svh, weight, mcg, mul1
    {
      Params(trellis[..], suh[..], svh[..], weight[..], mcg[..], mul1[..], loaded)
    }

    ghost predicate Valid()
      reads this, trellis, suh, svh, weight, mcg, mul1
    {
      && ValidGeometry(g) && Shaped(g, Abs()) && suh != weight && mcg != mul1
      && trellis as object != suh as object && trellis as object != weight as object
    }

    /** `create_weights`: staging tensors of the partition's sizes, zeroed markers. */
    constructor (g: Geometry)
      requires ValidGeometry(g)
      ensures Valid() && this.g == g && loaded == {} && fresh(trellis) && fresh(suh) && fresh(svh) && fresh(weight) && fresh(mcg) && fresh(mul1)
      ensures forall i :: 0 <= i < |g.sizes| ==> mcg[i] == 0 && mul1[i] == 0
    {
      this.g := g;
      trellis := new seq<T>[TileStart(g, |g.sizes|)];
      suh := new seq<real>[|g.sizes|];
      svh := new real[OutStart(g, |g.sizes|)];
      weight := new seq<real>[RowStart(g, |g.bf16|)];
      mcg := new int[|g.sizes|](_ => 0);
      mul1 := new int[|g.sizes|](_ => 0);
      loaded := {};
    }

    /** `_load_exl3`. */
    method LoadPart(i: int, part: Part<T>) returns (fault: Option<Fault>)
      requires Valid() && WellFormed(part)
      modifies this, trellis, suh, svh, weight, mcg, mul1
      ensures Valid()
      ensures match Load(g, old(Abs()), i, part)
              case Ok(p) => fault.None? && Abs() == p
              case Err(f) => fault == Some(f) && Abs() == old(Abs())
    {
      if !(0 <= i < |g.sizes|) { return Some(BadShard); }
      if part.WeightPart? && i !in g.bf16 { return None; }
      if !Applies(g, i, KindOf(part)) { return Some(PackedForBf16); }
      var share := Share(g, i, part);
      if share.Err? { return Some(share.fault); }
      ShareKind(g, i, part);
      if !FitsSlot(g, i, share.value) { return Some(ShapeMismatch); }
      StoreKeepsShape(g, Abs(), i, share.value);
      StorePart(i, share.value);
      return None;
    }

    /** The destination slice takes the share. */
    method StorePart(i: nat, q: Part<T>)
      requires Valid() && i < |g.sizes| && Applies(g, i, KindOf(q)) && FitsSlot(g, i, q)
      requires Slot(g, i, KindOf(q)).0 + Slot(g, i, KindOf(q)).1 <= Room(Abs(), KindOf(q)) && Shaped(g, Store(g, Abs(), i, q))
      modifies this, trellis, suh, svh, weight, mcg, mul1
      ensures Valid() && Abs() == Store(g, old(Abs()), i, q)
    {
      var at := Slot(g, i, KindOf(q)).0;
      match q {
        case TrellisPart(_, cols) => CopyInto(trellis, at, cols);
        case SuhPart(s) =>
          suh[i] := s;
          assert suh[..] == old(suh[..])[i := s];
        case SvhPart(s) => CopyInto(svh, at, s);
        case WeightPart(rows) => CopyInto(weight, at, rows);
        case McgPart(v) =>
          mcg[i] := v;
          assert mcg[..] == old(mcg[..])[i := v];
        case Mul1Part(v) =>
          mul1[i] := v;
          assert mul1[..] == old(mul1[..])[i := v];
      }
      loaded := loaded + {(i, KindOf(q))};
    }

    method SliceOut(i: nat, tileStart: nat, outStart: nat) returns (l: Linear<T>)
      requires Valid() && i < |g.sizes| && i !in g.bf16 && tileStart == TileStart(g, i) && outStart == OutStart(g, i)
      ensures Some(l) == LinearOf(g, Abs(), i)
    {
      TileStartMonotone(g, i + 1, |g.sizes|);
      l := Linear(trellis[tileStart..tileStart + g.sizes[i] / 16], suh[i], svh[outStart..outStart + g.sizes[i]],
                  MarkerOf(mcg[i]), MarkerOf(mul1[i]));
      assert trellis[tileStart..tileStart + g.sizes[i] / 16] == Abs().trellis[tileStart..tileStart + g.sizes[i] / 16];
      assert svh[outStart..outStart + g.sizes[i]] == Abs().svh[outStart..outStart + g.sizes[i]];
    }

    /** One linear per packed shard, sliced at running offsets. */
    method Linears() returns (linears: seq<Option<Linear<T>>>)
      requires Valid()
      ensures |linears| == |g.sizes| && forall j :: 0 <= j < |g.sizes| ==> linears[j] == LinearOf(g, Abs(), j)
    {
      ghost var p := Abs();
      linears := [];
      var tileStart, outStart, i := 0, 0, 0;
      while i < |g.sizes|
        invariant 0 <= i <= |g.sizes| && |linears| == i
        invariant tileStart == TileStart(g, i) && outStart == OutStart(g, i)
        invariant forall j :: 0 <= j < i ==> linears[j] == LinearOf(g, p, j)
      {
        if i in g.bf16 {
          linears := linears + [None];
        } else {
          var linear := SliceOut(i, tileStart, outStart);
          linears := linears + [Some(linear)];
          tileStart := tileStart + g.sizes[i] / 16;
        }
        outStart := outStart + g.sizes[i];
        i := i + 1;
      }
    }

    /** `process_weights_after_loading`, up to the list of linears. */
    method Build() returns (r: Result<seq<Option<Linear<T>>>>)
      requires Valid()
      ensures IsBuilt(g, Abs(), r)
    {
      var bad := FirstBad(g, Params(trellis[..], suh[..], svh[..], weight[..], mcg[..], mul1[..], loaded), 0);
      if bad.Some? { return Err(BadMarker(bad.value)); }
      if !(forall i :: 0 <= i < |g.sizes| ==> Needed(g, i) <= loaded) { return Err(Missing); }
      var linears := Linears();
      return Ok(linears);
    }
  }

  method CopyInto<X>(dst: array<X>, at: nat, src: seq<X>)
    requires at + |src| <= dst.Length
    modifies dst
    ensures dst[..] == Put(old(dst[..]), at, src)
  {
    var i := 0;
    while i < |src|
      invariant 0 <= i <= |src|
      invariant forall k :: 0 <= k < i ==> dst[at + k] == src[k]
      invariant forall k :: 0 <= k < dst.Length && !(at <= k < at + i) ==> dst[k] == old(dst[k])
    {
      dst[at + i] := src[i];
      i := i + 1;
    }
  }
}
