/** The dense overlay builder of tools/dense_overlay.py: resumable range reads, slicing of
    fused source tensors, and concurrent positioned writes into one safetensors file. */
module DenseOverlay {
  import opened Common
  import opened Stores
  import Arith

  type Byte = bv8

  // ----- resumable range reads -----

  /** The server's reply to one attempt: the chunks it delivers before it ends or breaks. */
  type Server = (nat, nat) -> seq<seq<Byte>>

  function Join(chunks: seq<seq<Byte>>): seq<Byte> { if chunks == [] then [] else chunks[0] + Join(chunks[1..]) }

  /** Whatever an attempt delivers is a prefix of what was asked for. */
  ghost predicate Honest(data: seq<Byte>, to: nat, serve: Server) {
    to < |data| && forall attempt: nat, from: nat :: from <= to + 1 ==> Join(serve(attempt, from)) <= data[from..to + 1]
  }

  lemma {:induction false} JoinSnoc(chunks: seq<seq<Byte>>, c: seq<Byte>)
    ensures Join(chunks + [c]) == Join(chunks) + c
  {
    if chunks == [] {
      assert [c][1..] == [] && ([] + [c]) == [c];
    } else {
      assert (chunks + [c])[0] == chunks[0] && (chunks + [c])[1..] == chunks[1..] + [c];
      JoinSnoc(chunks[1..], c);
    }
  }

  /** How many of the range's bytes have arrived after `k` attempts. */
  ghost function Arrived(data: seq<Byte>, from: nat, to: nat, serve: Server, k: nat): (n: nat)
    requires Honest(data, to, serve) && from <= to + 1
    ensures from + n <= to + 1
  {
    if k == 0 then 0
    else
      var before := Arrived(data, from, to, serve, k - 1);
      before + |Join(serve(k - 1, from + before))|
  }

  /** Copy one attempt's chunks to the output. */
  method ReadAttempt(chunks: seq<seq<Byte>>, out: seq<Byte>) returns (more: seq<Byte>, n: nat)
    ensures more == out + Join(chunks) && n == |Join(chunks)|
  {
    more, n := out, 0;
    var i := 0;
    assert chunks[..0] == [];
    while i < |chunks|
      invariant 0 <= i <= |chunks| && more == out + Join(chunks[..i]) && n == |Join(chunks[..i])|
    {
      JoinSnoc(chunks[..i], chunks[i]);
      assert chunks[..i + 1] == chunks[..i] + [chunks[i]];
      more := more + chunks[i];
      n := n + |chunks[i]|;
      i := i + 1;
    }
    assert chunks[..i] == chunks;
  }

  /** Attempt `k` continues exactly where the earlier ones stopped. */
  lemma NextPiece(data: seq<Byte>, from: nat, to: nat, serve: Server, k: nat)
    requires Honest(data, to, serve) && from <= to + 1
    ensures var n := Arrived(data, from, to, serve, k); var piece := Join(serve(k, from + n));
            && Arrived(data, from, to, serve, k + 1) == n + |piece|
            && data[from..from + n] + piece == data[from..from + n + |piece|]
  {
    var n := Arrived(data, from, to, serve, k);
    PrefixJoins(data, from, from + n, to + 1, Join(serve(k, from + n)));
  }

  lemma PrefixJoins<T>(data: seq<T>, a: nat, b: nat, end: nat, piece: seq<T>)
    requires a <= b <= end <= |data| && piece <= data[b..end]
    ensures b + |piece| <= end && data[a..b] + piece == data[a..b + |piece|]
  {
    assert piece == data[b..b + |piece|];
  }

  lemma {:induction false} ArrivedStays(data: seq<Byte>, from: nat, to: nat, serve: Server, k: nat, tries: nat)
    requires Honest(data, to, serve) && from <= to && k <= tries && Arrived(data, from, to, serve, k) == to + 1 - from
    ensures Arrived(data, from, to, serve, tries) == to + 1 - from
  {
    if k < tries {
      ArrivedStays(data, from, to, serve, k, tries - 1);
      NextPiece(data, from, to, serve, tries - 1);
    }
  }

  /** After `k` attempts the output ends with exactly the bytes that have arrived. */
  ghost predicate Received(data: seq<Byte>, from: nat, to: nat, serve: Server, k: nat, out: seq<Byte>, n: nat, more: seq<Byte>)
    requires Honest(data, to, serve) && from <= to + 1
  {
    n == Arrived(data, from, to, serve, k) && more == out + data[from..from + n]
  }

  /** `http_stream_to`: whatever the pattern of short reads, the output gets exactly what
      arrived, in order; it succeeds exactly when `tries` attempts deliver the range. */
  method StreamTo(data: seq<Byte>, from: nat, to: nat, serve: Server, out: seq<Byte>, tries: nat) returns (ok: bool, more: seq<Byte>)
    requires Honest(data, to, serve) && from <= to
    ensures more == out + data[from..from + Arrived(data, from, to, serve, tries)]
    ensures ok <==> Arrived(data, from, to, serve, tries) == to + 1 - from
    ensures ok ==> more == out + data[from..to + 1]
  {
    more := out;
    var n: nat, attempt: nat := 0, 0;
    assert data[from..from] == [];
    while attempt < tries
      invariant 0 <= attempt <= tries && n < to + 1 - from
      invariant Received(data, from, to, serve, attempt, out, n, more)
    {
      var m;
      more, m := Attempt(data, from, to, serve, attempt, n, out, more);
      n := n + m;
      attempt := attempt + 1;
      if n == to + 1 - from {
        ArrivedStays(data, from, to, serve, attempt, tries);
        return true, more;
      }
    }
    return false, more;
  }

  method Attempt(data: seq<Byte>, from: nat, to: nat, serve: Server, attempt: nat, n: nat, ghost out: seq<Byte>, so: seq<Byte>) returns (more: seq<Byte>, m: nat)
    requires Honest(data, to, serve) && from <= to + 1 && Received(data, from, to, serve, attempt, out, n, so)
    ensures Received(data, from, to, serve, attempt + 1, out, n + m, more)
  {
    more, m := ReadAttempt(serve(attempt, from + n), so);
    ReceivedMore(data, from, to, serve, attempt, out, n, so);
  }

  lemma ReceivedMore(data: seq<Byte>, from: nat, to: nat, serve: Server, k: nat, out: seq<Byte>, n: nat, so: seq<Byte>)
    requires Honest(data, to, serve) && from <= to + 1 && Received(data, from, to, serve, k, out, n, so)
    ensures var piece := Join(serve(k, from + n)); Received(data, from, to, serve, k + 1, out, n + |piece|, so + piece)
  {
    NextPiece(data, from, to, serve, k);
    Regroup(out, data[from..from + n], Join(serve(k, from + n)));
  }

  lemma Regroup<T>(a: seq<T>, b: seq<T>, c: seq<T>)
    ensures a + b + c == a + (b + c)
  {
  }

  // ----- the header -----

  function Offset(sizes: seq<nat>, i: nat): nat
    requires i <= |sizes|
  {
    if i == 0 then 0 else Offset(sizes, i - 1) + sizes[i - 1]
  }

  /** The JSON text padded to a multiple of eight. */
  function Padded(json: nat): nat { json + (if json % 8 == 0 then 0 else 8 - json % 8) }

  function DataStart(json: nat): (r: nat)
    ensures r % 8 == 0
  {
    8 + Padded(json)
  }

  /** `write_header`: each tensor's data offsets. */
  method WriteHeader(sizes: seq<nat>) returns (offsets: seq<(nat, nat)>)
    ensures |offsets| == |sizes|
    ensures forall i :: 0 <= i < |sizes| ==> offsets[i] == (Offset(sizes, i), Offset(sizes, i + 1))
  {
    offsets := [];
    var off, i := 0, 0;
    while i < |sizes|
      invariant 0 <= i <= |sizes| && |offsets| == i && off == Offset(sizes, i)
      invariant forall k :: 0 <= k < i ==> offsets[k] == (Offset(sizes, k), Offset(sizes, k + 1))
    {
      offsets := offsets + [(off, off + sizes[i])];
      off := off + sizes[i];
      i := i + 1;
    }
  }

  lemma {:induction false} OffsetMonotone(sizes: seq<nat>, i: nat, j: nat)
    requires i <= j <= |sizes|
    ensures Offset(sizes, i) <= Offset(sizes, j)
  {
    if i < j {
      OffsetMonotone(sizes, i, j - 1);
    }
  }

  predicate Owns(sizes: seq<nat>, i: nat, p: nat) { i < |sizes| && Offset(sizes, i) <= p < Offset(sizes, i + 1) }

  /** Main theorem: the tensors' ranges tile the data area: every byte belongs to exactly
      one tensor. */
  lemma {:induction false} RangesTile(sizes: seq<nat>, n: nat, p: nat) returns (i: nat)
    requires n <= |sizes| && p < Offset(sizes, n)
    ensures i < n && Owns(sizes, i, p) && forall j: nat :: j < |sizes| && Owns(sizes, j, p) ==> j == i
  {
    if p >= Offset(sizes, n - 1) {
      i := n - 1;
    } else {
      i := RangesTile(sizes, n - 1, p);
    }
    forall j: nat | j < |sizes| && Owns(sizes, j, p) ensures j == i {
      OneOwner(sizes, i, j, p);
    }
  }

  lemma OneOwner(sizes: seq<nat>, i: nat, j: nat, p: nat)
    requires Owns(sizes, i, p) && Owns(sizes, j, p)
    ensures i == j
  {
    if i < j {
      OffsetMonotone(sizes, i + 1, j);
    } else if j < i {
      OffsetMonotone(sizes, j + 1, i);
    }
  }

  // ----- slices of fused sources -----

  /** Block `j` of one row: a contiguous run. */
  function RowRun(blob: seq<Byte>, rowBytes: nat, run: nat, j: nat, r: nat): seq<Byte>
    requires r * rowBytes + j * run >= 0 && r * rowBytes + j * run + run <= |blob|
  {
    blob[r * rowBytes + j * run..r * rowBytes + j * run + run]
  }

  /** A fused trellis: `rows` x `cols` tiles of `words` 16-bit words, `blocks` shards side
      by side. */
  datatype Fused = Fused(rows: nat, cols: nat, words: nat, blocks: nat)

  function RowBytes(f: Fused): nat {
    Arith.MulMono(f.words, 0, f.cols);
    f.cols * f.words * 2
  }

  /** Bytes of one block in one row. */
  function RunBytes(f: Fused): nat
    requires f.blocks > 0
  {
    Arith.MulMono(f.words, 0, f.cols / f.blocks);
    f.cols / f.blocks * f.words * 2
  }

  ghost predicate ValidFused(f: Fused, blob: seq<Byte>) {
    Arith.MulMono(RowBytes(f), 0, f.rows);
    f.blocks > 0 && |blob| == f.rows * RowBytes(f)
  }

  lemma BlocksFit(f: Fused)
    requires f.blocks > 0
    ensures f.blocks * RunBytes(f) <= RowBytes(f)
    ensures f.cols % f.blocks == 0 ==> f.blocks * RunBytes(f) == RowBytes(f)
  {
    var c := f.cols / f.blocks;
    Arith.DivMulBounds(f.cols, f.blocks);
    Arith.MulMono(f.words * 2, c * f.blocks, f.cols);
    assert f.blocks * (c * f.words * 2) == (c * f.blocks) * (f.words * 2);
    assert RowBytes(f) == f.cols * (f.words * 2);
  }

  lemma RunInside(f: Fused, blob: seq<Byte>, j: nat, r: nat)
    requires ValidFused(f, blob) && j < f.blocks && r < f.rows
    ensures 0 <= r * RowBytes(f) + j * RunBytes(f) && r * RowBytes(f) + j * RunBytes(f) + RunBytes(f) <= |blob|
  {
    BlocksFit(f);
    Arith.MulMono(RunBytes(f), 0, j);
    Arith.MulMono(RunBytes(f), j + 1, f.blocks);
    Arith.OneMore(j, RunBytes(f));
    Arith.MulMono(RowBytes(f), 0, r);
    Arith.MulMono(RowBytes(f), r + 1, f.rows);
    Arith.OneMore(r, RowBytes(f));
  }

  /** Block `j`: its run of every row below `n`. */
  function Slice(f: Fused, blob: seq<Byte>, j: nat, n: nat): seq<Byte>
    requires ValidFused(f, blob) && j < f.blocks && n <= f.rows
  {
    if n == 0 then [] else
      RunInside(f, blob, j, n - 1);
      Slice(f, blob, j, n - 1) + RowRun(blob, RowBytes(f), RunBytes(f), j, n - 1)
  }

  /** The trellis branch of `download_bytes`. */
  method SliceTrellis(f: Fused, blob: seq<Byte>, j: nat) returns (s: seq<Byte>)
    requires ValidFused(f, blob) && j < f.blocks
    ensures s == Slice(f, blob, j, f.rows)
  {
    s := [];
    var r := 0;
    while r < f.rows
      invariant 0 <= r <= f.rows && s == Slice(f, blob, j, r)
    {
      RunInside(f, blob, j, r);
      s := s + RowRun(blob, RowBytes(f), RunBytes(f), j, r);
      r := r + 1;
    }
  }

  lemma {:induction false} SliceAt(f: Fused, blob: seq<Byte>, j: nat, n: nat, r: nat, x: nat)
    requires ValidFused(f, blob) && j < f.blocks && n <= f.rows && r < n && x < RunBytes(f)
    ensures |Slice(f, blob, j, n)| == n * RunBytes(f) && r * RunBytes(f) + x < n * RunBytes(f)
    ensures 0 <= r * RowBytes(f) + j * RunBytes(f) + x < |blob| && r * RunBytes(f) + x >= 0
    ensures Slice(f, blob, j, n)[r * RunBytes(f) + x] == blob[r * RowBytes(f) + j * RunBytes(f) + x]
  {
    SliceLength(f, blob, j, n - 1);
    RunInside(f, blob, j, n - 1);
    RunInside(f, blob, j, r);
    Arith.OneMore(n - 1, RunBytes(f));
    Arith.MulMono(RunBytes(f), 0, r);
    if r < n - 1 {
      SliceAt(f, blob, j, n - 1, r, x);
    }
  }

  lemma {:induction false} SliceLength(f: Fused, blob: seq<Byte>, j: nat, n: nat)
    requires ValidFused(f, blob) && j < f.blocks && n <= f.rows
    ensures |Slice(f, blob, j, n)| == n * RunBytes(f)
  {
    if n > 0 {
      SliceLength(f, blob, j, n - 1);
      RunInside(f, blob, j, n - 1);
      Arith.OneMore(n - 1, RunBytes(f));
    }
  }

  /** Main theorem: when the blocks divide the columns, every byte of the fused source is
      found in exactly one block, at its own row: byte `j * run + x` of row `r` is byte
      `x` of row `r` of block `j`. */
  lemma SlicesRecombine(f: Fused, blob: seq<Byte>, p: nat) returns (r: nat, j: nat, x: nat)
    requires ValidFused(f, blob) && f.cols % f.blocks == 0 && p < |blob|
    ensures r < f.rows && j < f.blocks && x < RunBytes(f) && p == r * RowBytes(f) + j * RunBytes(f) + x
    ensures |Slice(f, blob, j, f.rows)| == f.rows * RunBytes(f) && 0 <= r * RunBytes(f) + x < f.rows * RunBytes(f)
    ensures Slice(f, blob, j, f.rows)[r * RunBytes(f) + x] == blob[p]
  {
    r, j, x := Coordinates(f, p);
    SliceAt(f, blob, j, f.rows, r, x);
  }

  lemma TwoDigits(p: nat, d: nat, e: nat, rows: nat, blocks: nat) returns (r: nat, j: nat, x: nat)
    requires d == blocks * e && p < rows * d
    ensures r < rows && j < blocks && x < e && p == r * d + j * e + x
  {
    Split(p, d, rows);
    r := p / d;
    Split(p % d, e, blocks);
    j, x := p % d / e, p % d % e;
  }

  lemma Coordinates(f: Fused, p: nat) returns (r: nat, j: nat, x: nat)
    requires f.blocks > 0 && f.cols % f.blocks == 0 && p < f.rows * RowBytes(f)
    ensures r < f.rows && j < f.blocks && x < RunBytes(f) && p == r * RowBytes(f) + j * RunBytes(f) + x
  {
    BlocksFit(f);
    r, j, x := TwoDigits(p, RowBytes(f), RunBytes(f), f.rows, f.blocks);
  }

  lemma Split(p: nat, d: nat, n: nat)
    requires p < n * d
    ensures d > 0 && p / d < n && p == p / d * d + p % d
  {
    assert d == 0 ==> n * d == 0;
    Arith.DivMulBounds(p, d);
    if p / d >= n {
      Arith.MulMono(d, n, p / d);
      assert false;
    }
  }

  /** When they do not divide them, bytes are lost: together the blocks are shorter than
      the source, exactly if a row has any bytes at all past the last whole block. */
  lemma SlicesCoverExactlyWhenDivisible(f: Fused, blob: seq<Byte>)
    requires ValidFused(f, blob) && f.rows > 0 && f.words > 0
    ensures f.blocks * RunBytes(f) == RowBytes(f) <==> f.cols % f.blocks == 0
  {
    BlocksFit(f);
    var c := f.cols / f.blocks;
    Arith.DivMulBounds(f.cols, f.blocks);
    assert f.blocks * (c * f.words * 2) == (c * f.blocks) * (f.words * 2);
    assert RowBytes(f) == f.cols * (f.words * 2);
    if f.cols % f.blocks != 0 {
      var lost := f.cols - c * f.blocks;
      assert f.cols == f.blocks * c + f.cols % f.blocks;
      assert lost > 0;
      assert RowBytes(f) - f.blocks * RunBytes(f) == lost * (f.words * 2);
      Arith.MulLower(f.words * 2, lost);
    }
  }

  /** The trellis shape that the plan demands of a source fused from `blocks` tensors of
      `inF` x `outF` at `k` bits. */
  function ProbedShape(inF: nat, outF: nat, blocks: nat, k: nat): Fused {
    Arith.MulMono(blocks, 0, outF);
    Fused(inF / 16, outF * blocks / 16, 16 * k, blocks)
  }

  lemma WholeTiles(outF: nat, blocks: nat)
    requires outF % 16 == 0
    ensures outF * blocks >= 0 && outF * blocks / 16 == outF / 16 * blocks
  {
    Arith.MulMono(blocks, 0, outF);
    Arith.MulMono(blocks, 0, outF / 16);
    assert outF == outF / 16 * 16;
    assert outF * blocks == (outF / 16 * blocks) * 16;
    Arith.DivUnique(outF * blocks, 16, outF / 16 * blocks, 0);
  }

  /** Sources whose outputs are whole tiles, the only ones the loader takes, divide. */
  lemma ProbedSourcesDivide(inF: nat, outF: nat, blocks: nat, k: nat)
    requires blocks > 0 && outF % 16 == 0
    ensures var f := ProbedShape(inF, outF, blocks, k); f.cols % f.blocks == 0 && f.cols / f.blocks == outF / 16
  {
    WholeTiles(outF, blocks);
    Arith.MulMod(outF / 16, blocks);
  }

  /** Two outputs of 24 share three tile columns: the plan accepts the source and each
      slice has the planned length, but the third column of the row is in neither. */
  lemma HalfTilesAreLost(blob: seq<Byte>)
    requires ValidFused(ProbedShape(16, 24, 2, 1), blob)
    ensures var f := ProbedShape(16, 24, 2, 1);
            && f == Fused(1, 3, 16, 2) && |blob| == 96
            && |Slice(f, blob, 0, 1)| == |Slice(f, blob, 1, 1)| == 24 / 16 * 16 * 2
            && Slice(f, blob, 0, 1) + Slice(f, blob, 1, 1) == blob[..64]
  {
    var f := ProbedShape(16, 24, 2, 1);
    assert RowBytes(f) == 96 && RunBytes(f) == 32;
    assert Slice(f, blob, 0, 0) == [] && Slice(f, blob, 1, 0) == [];
    assert Slice(f, blob, 0, 1) == blob[..32];
    assert Slice(f, blob, 1, 1) == blob[32..64];
  }

  // ----- output tensors -----

  datatype Part = Trellis | Suh | Svh | Marker

  /** One output tensor: its source, which block of it, and the source's shape. */
  datatype Output = Output(src: nat, part: Part, block: nat, shape: Fused, outF: nat)

  /** The bytes of a source tensor, by source and part. */
  type Remote = (nat, Part) -> seq<Byte>

  predicate IsFused(o: Output) { o.shape.blocks > 1 && o.part != Suh && o.part != Marker }

  ghost predicate ValidOutput(remote: Remote, o: Output) {
    IsFused(o) ==> o.block < o.shape.blocks && (o.part.Trellis? ==> ValidFused(o.shape, remote(o.src, o.part)))
  }

  /** A Python slice: bounds past the end are clipped. */
  function Clip(s: seq<Byte>, from: nat, to: nat): seq<Byte> {
    if from >= |s| || to <= from then [] else s[from..Min(to, |s|)]
  }

  /** What `download_bytes` returns. */
  ghost function Bytes(remote: Remote, o: Output): seq<Byte>
    requires ValidOutput(remote, o)
  {
    var blob := remote(o.src, o.part);
    if !IsFused(o) then blob
    else if o.part.Svh? then SvhSlice(blob, o.outF, o.block)
    else Slice(o.shape, blob, o.block, o.shape.rows)
  }

  function SvhSlice(blob: seq<Byte>, outF: nat, j: nat): seq<Byte> {
    Arith.MulMono(outF * 2, 0, j);
    Clip(blob, j * (outF * 2), j * (outF * 2) + outF * 2)
  }

  lemma ClipPiece(blob: seq<Byte>, w: nat, blocks: nat, p: nat) returns (j: nat, x: nat)
    requires |blob| == blocks * w && p < |blob|
    ensures j < blocks && x < w && p == j * w + x && 0 <= j * w
    ensures |Clip(blob, j * w, j * w + w)| == w && Clip(blob, j * w, j * w + w)[x] == blob[p]
  {
    Split(p, w, blocks);
    j, x := p / w, p % w;
    Arith.MulMono(w, j + 1, blocks);
    Arith.OneMore(j, w);
  }

  /** The output scales of a fused source recombine end to end. */
  lemma SvhSlicesRecombine(blob: seq<Byte>, outF: nat, blocks: nat, p: nat) returns (j: nat, x: nat)
    requires |blob| == blocks * (outF * 2) && p < |blob|
    ensures j < blocks && x < outF * 2 && p == j * (outF * 2) + x
    ensures |SvhSlice(blob, outF, j)| == outF * 2 && SvhSlice(blob, outF, j)[x] == blob[p]
  {
    j, x := ClipPiece(blob, outF * 2, blocks, p);
  }

  /** A remote repository: per source part the file it lies in, and the first and last
      position of its bytes there (`tensor_range`). */
  datatype Repo = Repo(file: Remote, first: (nat, Part) -> nat, last: (nat, Part) -> nat)

  /** The bytes that the plan means. */
  ghost function PartsOf(repo: Repo): Remote {
    (src: nat, part: Part) =>
      var data, a, b := repo.file(src, part), repo.first(src, part), repo.last(src, part);
      if a <= b < |data| then data[a..b + 1] else []
  }

  /** The server that answers the read of this output, short replies and failures included. */
  ghost predicate Answers(repo: Repo, o: Output, serve: Server) {
    repo.first(o.src, o.part) <= repo.last(o.src, o.part) && Honest(repo.file(o.src, o.part), repo.last(o.src, o.part), serve)
  }

  /** Do `tries` attempts deliver the whole part? */
  ghost predicate Arrives(repo: Repo, o: Output, serve: Server, tries: nat)
    requires Answers(repo, o, serve)
  {
    var a, b := repo.first(o.src, o.part), repo.last(o.src, o.part);
    Arrived(repo.file(o.src, o.part), a, b, serve, tries) == b + 1 - a
  }

  /** `http_bytes`: a resumed read of one part, or nothing if it falls short. */
  method ReadPart(repo: Repo, o: Output, serve: Server, tries: nat) returns (data: Option<seq<Byte>>)
    requires Answers(repo, o, serve)
    ensures data.Some? <==> Arrives(repo, o, serve, tries)
    ensures data.Some? ==> data.value == PartsOf(repo)(o.src, o.part)
  {
    var file, a, b := repo.file(o.src, o.part), repo.first(o.src, o.part), repo.last(o.src, o.part);
    var ok, bytes := StreamTo(file, a, b, serve, [], tries);
    if ok {
      assert bytes == file[a..b + 1];
      return Some(bytes);
    }
    return None;
  }

  /** The one-entry cache of a job. */
  datatype Cache = NoBlob | Blob(src: nat, part: Part, data: seq<Byte>)

  ghost predicate Coherent(remote: Remote, c: Cache) { c.Blob? ==> c.data == remote(c.src, c.part) }

  /** `download_bytes`: neither the cache nor short replies change the result; it fails only
      if a read falls short. */
  method DownloadBytes(repo: Repo, serve: Server, tries: nat, o: Output, c: Cache) returns (data: Option<seq<Byte>>, next: Cache)
    requires ValidOutput(PartsOf(repo), o) && Coherent(PartsOf(repo), c) && Answers(repo, o, serve)
    ensures Coherent(PartsOf(repo), next)
    ensures data.Some? ==> data.value == Bytes(PartsOf(repo), o)
    ensures data.None? ==> !Arrives(repo, o, serve, tries)
  {
    next := c;
    if !IsFused(o) {
      data := ReadPart(repo, o, serve, tries);
      return;
    }
    if !(c.Blob? && c.src == o.src && c.part == o.part) {
      var blob := ReadPart(repo, o, serve, tries);
      if blob.None? { return None, NoBlob; }
      next := Blob(o.src, o.part, blob.value);
    }
    if o.part.Svh? {
      data := Some(SvhSlice(next.data, o.outF, o.block));
    } else {
      var slice := SliceTrellis(o.shape, next.data, o.block);
      data := Some(slice);
    }
  }

  // ----- jobs -----

  datatype Key = Shared(src: nat, part: Part) | Own(i: nat)

  function KeyOf(outs: seq<Output>, i: nat): Key
    requires i < |outs|
  {
    if IsFused(outs[i]) then Shared(outs[i].src, outs[i].part) else Own(i)
  }

  datatype Job = Job(key: Key, idxs: seq<nat>)

  predicate JobOk(outs: seq<Output>, j: Job, n: nat) {
    && n <= |outs|
    && (forall k :: 0 <= k < |j.idxs| ==> j.idxs[k] < n && KeyOf(outs, j.idxs[k]) == j.key)
    && (forall a, b :: 0 <= a < b < |j.idxs| ==> j.idxs[a] < j.idxs[b])
  }

  predicate Listed(jobs: seq<Job>, i: nat) { exists g :: 0 <= g < |jobs| && i in jobs[g].idxs }

  /** Every output below `n` is in exactly the job of its key, once. */
  predicate Grouped(outs: seq<Output>, jobs: seq<Job>, n: nat) {
    && (forall g :: 0 <= g < |jobs| ==> JobOk(outs, jobs[g], n))
    && (forall g, h :: 0 <= g < h < |jobs| ==> jobs[g].key != jobs[h].key)
    && (forall i: nat :: i < n ==> Listed(jobs, i))
  }

  /** The jobs of `main`: fused blocks of one source share a job. */
  method GroupJobs(outs: seq<Output>) returns (jobs: seq<Job>)
    ensures Grouped(outs, jobs, |outs|)
  {
    jobs := [];
    var i := 0;
    while i < |outs|
      invariant 0 <= i <= |outs| && Grouped(outs, jobs, i)
    {
      jobs := SetDefaultAppend(outs, jobs, i);
      i := i + 1;
    }
  }

  /** `groups.setdefault(key, []).append(i)`. */
  method SetDefaultAppend(outs: seq<Output>, jobs: seq<Job>, i: nat) returns (r: seq<Job>)
    requires i < |outs| && Grouped(outs, jobs, i)
    ensures Grouped(outs, r, i + 1)
  {
    var key := KeyOf(outs, i);
    var g := 0;
    while g < |jobs| && jobs[g].key != key
      invariant 0 <= g <= |jobs| && forall h :: 0 <= h < g ==> jobs[h].key != key
    {
      g := g + 1;
    }
    if g == |jobs| {
      r := jobs + [Job(key, [i])];
    } else {
      r := jobs[g := Job(key, jobs[g].idxs + [i])];
    }
    GroupedGrows(outs, jobs, r, i, g);
  }

  lemma GroupedGrows(outs: seq<Output>, jobs: seq<Job>, r: seq<Job>, i: nat, g: nat)
    requires i < |outs| && Grouped(outs, jobs, i) && g <= |jobs|
    requires if g == |jobs| then r == jobs + [Job(KeyOf(outs, i), [i])] && forall h :: 0 <= h < |jobs| ==> jobs[h].key != KeyOf(outs, i)
             else jobs[g].key == KeyOf(outs, i) && r == jobs[g := Job(jobs[g].key, jobs[g].idxs + [i])]
    ensures Grouped(outs, r, i + 1)
  {
    forall h | 0 <= h < |r| ensures JobOk(outs, r[h], i + 1) {
      if h < |jobs| { assert JobOk(outs, jobs[h], i); }
    }
    forall x: nat | x < i + 1 ensures Listed(r, x) {
      if x < i {
        assert Listed(jobs, x);
        var h :| 0 <= h < |jobs| && x in jobs[h].idxs;
        assert x in r[h].idxs;
      } else {
        assert i in r[g].idxs;
      }
    }
  }

  /** Two jobs never share an output, so their writes are disjoint. */
  lemma JobsDisjoint(outs: seq<Output>, jobs: seq<Job>, g: nat, h: nat, i: nat)
    requires Grouped(outs, jobs, |outs|) && g < h < |jobs| && i in jobs[g].idxs
    ensures i !in jobs[h].idxs
  {
    assert JobOk(outs, jobs[g], |outs|) && JobOk(outs, jobs[h], |outs|);
  }

  // ----- concurrent positioned writes -----

  /** The file after `write_header` and `truncate`: header, then the whole data area. */
  datatype Layout = Layout(start: nat, sizes: seq<nat>)

  ghost predicate Planned(remote: Remote, outs: seq<Output>, l: Layout, i: nat) {
    i < |outs| == |l.sizes| && ValidOutput(remote, outs[i]) && |Bytes(remote, outs[i])| == l.sizes[i]
  }

  ghost predicate ValidPlan(remote: Remote, outs: seq<Output>, l: Layout) {
    |l.sizes| == |outs| && forall i: nat :: i < |outs| ==> Planned(remote, outs, l, i)
  }

  /** One byte of one output's write. */
  datatype Event = Event(i: nat, x: nat)

  ghost predicate Issues(remote: Remote, outs: seq<Output>, l: Layout, e: Event) {
    Planned(remote, outs, l, e.i) && e.x < l.sizes[e.i]
  }

  ghost function StoreOf(remote: Remote, outs: seq<Output>, l: Layout, e: Event): Store<Byte>
    requires Issues(remote, outs, l, e)
  {
    Store(l.start + Offset(l.sizes, e.i) + e.x, Bytes(remote, outs[e.i])[e.x])
  }

  ghost predicate Comes(remote: Remote, outs: seq<Output>, l: Layout, s: Store<Byte>, e: Event) {
    Issues(remote, outs, l, e) && s == StoreOf(remote, outs, l, e)
  }

  /** Any interleaving of the byte stores of all jobs' writes. */
  ghost predicate IsInterleaving(remote: Remote, outs: seq<Output>, l: Layout, ss: seq<Store<Byte>>) {
    && (forall s :: s in ss ==> exists e :: Comes(remote, outs, l, s, e))
    && (forall e :: Issues(remote, outs, l, e) ==> StoreOf(remote, outs, l, e) in ss)
  }

  lemma WritesDisjoint(remote: Remote, outs: seq<Output>, l: Layout, e: Event, f: Event)
    requires Issues(remote, outs, l, e) && Issues(remote, outs, l, f)
    requires StoreOf(remote, outs, l, e).at == StoreOf(remote, outs, l, f).at
    ensures e == f
  {
    OneOwner(l.sizes, e.i, f.i, Offset(l.sizes, e.i) + e.x);
  }

  lemma InterleavingAgrees(remote: Remote, outs: seq<Output>, l: Layout, ss: seq<Store<Byte>>)
    requires IsInterleaving(remote, outs, l, ss)
    ensures Agree(ss)
  {
    forall a, b | a in ss && b in ss && a.at == b.at ensures a == b {
      var e :| Comes(remote, outs, l, a, e);
      var f :| Comes(remote, outs, l, b, f);
      WritesDisjoint(remote, outs, l, e, f);
    }
  }

  /** Main theorem: for any order of concurrent jobs, the finished file holds every
      planned tensor at its header offsets. */
  lemma PayloadIsPlan(remote: Remote, outs: seq<Output>, l: Layout, file: seq<Byte>, ss: seq<Store<Byte>>, i: nat, x: nat)
    requires ValidPlan(remote, outs, l) && IsInterleaving(remote, outs, l, ss)
    requires |file| == l.start + Offset(l.sizes, |outs|) && i < |outs| && x < l.sizes[i]
    ensures Planned(remote, outs, l, i) && l.start + Offset(l.sizes, i) + x < |file|
    ensures Run(file, ss)[l.start + Offset(l.sizes, i) + x] == Bytes(remote, outs[i])[x]
  {
    assert Planned(remote, outs, l, i);
    var e := Event(i, x);
    IssuedInFile(remote, outs, l, file, e);
    IssuedIsThere(remote, outs, l, file, ss, e, StoreOf(remote, outs, l, e));
  }

  lemma IssuedInFile(remote: Remote, outs: seq<Output>, l: Layout, file: seq<Byte>, e: Event)
    requires Issues(remote, outs, l, e) && |file| == l.start + Offset(l.sizes, |outs|)
    ensures StoreOf(remote, outs, l, e).at < |file|
  {
    OffsetMonotone(l.sizes, e.i + 1, |outs|);
  }

  lemma IssuedIsThere(remote: Remote, outs: seq<Output>, l: Layout, file: seq<Byte>, ss: seq<Store<Byte>>, e: Event, s: Store<Byte>)
    requires IsInterleaving(remote, outs, l, ss) && Comes(remote, outs, l, s, e) && s.at < |file|
    ensures Run(file, ss)[s.at] == s.v
  {
    InterleavingAgrees(remote, outs, l, ss);
    RunReads(file, ss, s);
  }

  /** The header is never touched. */
  lemma HeaderUntouched(remote: Remote, outs: seq<Output>, l: Layout, file: seq<Byte>, ss: seq<Store<Byte>>, p: nat)
    requires IsInterleaving(remote, outs, l, ss) && p < l.start && p < |file|
    ensures Run(file, ss)[p] == file[p]
  {
    forall k | 0 <= k < |ss| ensures ss[k].at != p {
      assert ss[k] in ss;
      var e :| Comes(remote, outs, l, ss[k], e);
    }
    RunElsewhere(file, ss, p);
  }

  // ----- the jobs, one after the other -----

  ghost predicate Written(remote: Remote, o: Output, l: Layout, file: seq<Byte>, i: nat)
    requires ValidOutput(remote, o)
  {
    && i < |l.sizes| && l.start + Offset(l.sizes, i + 1) <= |file|
    && file[l.start + Offset(l.sizes, i)..l.start + Offset(l.sizes, i + 1)] == Bytes(remote, o)
  }

  method PWrite(file: array<Byte>, at: nat, data: seq<Byte>)
    requires at + |data| <= file.Length
    modifies file
    ensures forall p :: 0 <= p < file.Length ==> file[p] == if at <= p < at + |data| then data[p - at] else old(file[p])
  {
    var i := 0;
    while i < |data|
      invariant 0 <= i <= |data|
      invariant forall p :: 0 <= p < file.Length ==> file[p] == if at <= p < at + i then data[p - at] else old(file[p])
    {
      file[at + i] := data[i];
      i := i + 1;
    }
  }

  datatype Outcome = Done | ShortRead | WrongLength

  /** The network as the builder meets it: the answers to the read made for each output. */
  type Net = nat -> Server

  /** What the builder is given: sources, their answers, the planned outputs and the file. */
  ghost predicate Setup(repo: Repo, net: Net, outs: seq<Output>, l: Layout) {
    && |l.sizes| == |outs|
    && forall i: nat :: i < |outs| ==> ValidOutput(PartsOf(repo), outs[i]) && Answers(repo, outs[i], net(i))
  }

  /** Why a job stopped at output `i`, if it did. */
  ghost predicate Explains(repo: Repo, net: Net, tries: nat, outs: seq<Output>, l: Layout, i: nat, r: Outcome)
    requires Setup(repo, net, outs, l)
  {
    && (r.ShortRead? ==> i < |outs| && !Arrives(repo, outs[i], net(i), tries))
    && (r.WrongLength? ==> i < |outs| && |Bytes(PartsOf(repo), outs[i])| != l.sizes[i])
  }

  /** One output of a job: fetch, check the length, write. */
  method FetchOne(file: array<Byte>, repo: Repo, net: Net, tries: nat, outs: seq<Output>, l: Layout, i: nat, c: Cache) returns (r: Outcome, next: Cache)
    requires Setup(repo, net, outs, l) && i < |outs| && Coherent(PartsOf(repo), c)
    requires file.Length == l.start + Offset(l.sizes, |outs|)
    modifies file
    ensures Coherent(PartsOf(repo), next) && Explains(repo, net, tries, outs, l, i, r)
    ensures r.Done? ==> Written(PartsOf(repo), outs[i], l, file[..], i)
    ensures forall p: nat :: p < file.Length && !(l.start <= p && Owns(l.sizes, i, p - l.start)) ==> file[p] == old(file[p])
  {
    var data;
    data, next := DownloadBytes(repo, net(i), tries, outs[i], c);
    if data.None? { return ShortRead, next; }
    if |data.value| != l.sizes[i] { return WrongLength, next; }
    OffsetMonotone(l.sizes, i + 1, |outs|);
    PWrite(file, l.start + Offset(l.sizes, i), data.value);
    r := Done;
  }

  lemma WrittenKept(remote: Remote, o: Output, l: Layout, before: seq<Byte>, after: seq<Byte>, i: nat, j: nat)
    requires ValidOutput(remote, o) && Written(remote, o, l, before, i) && |after| == |before| && j < |l.sizes| && i != j
    requires forall p: nat :: p < |after| && !(l.start <= p && Owns(l.sizes, j, p - l.start)) ==> after[p] == before[p]
    ensures Written(remote, o, l, after, i)
  {
    var a, b := l.start + Offset(l.sizes, i), l.start + Offset(l.sizes, i + 1);
    OffsetMonotone(l.sizes, i, i + 1);
    forall p: nat | a <= p < b ensures after[p] == before[p] {
      if Owns(l.sizes, j, p - l.start) {
        OneOwner(l.sizes, i, j, p - l.start);
        assert false;
      }
    }
    assert after[a..b] == before[a..b];
  }

  ghost predicate AllWritten(remote: Remote, outs: seq<Output>, l: Layout, file: seq<Byte>, done: set<nat>)
    requires forall i :: 0 <= i < |outs| ==> ValidOutput(remote, outs[i])
  {
    forall i: nat :: i in done && i < |outs| ==> Written(remote, outs[i], l, file, i)
  }

  lemma MoreWritten(remote: Remote, outs: seq<Output>, l: Layout, before: seq<Byte>, after: seq<Byte>, done: set<nat>, j: nat)
    requires |l.sizes| == |outs| && j < |outs| && |after| == |before|
    requires forall i :: 0 <= i < |outs| ==> ValidOutput(remote, outs[i])
    requires AllWritten(remote, outs, l, before, done) && Written(remote, outs[j], l, after, j)
    requires forall p: nat :: p < |after| && !(l.start <= p && Owns(l.sizes, j, p - l.start)) ==> after[p] == before[p]
    ensures AllWritten(remote, outs, l, after, done + {j})
  {
    forall i: nat | i in done + {j} && i < |outs| ensures Written(remote, outs[i], l, after, i) {
      if i != j {
        assert Written(remote, outs[i], l, before, i);
        WrittenKept(remote, outs[i], l, before, after, i, j);
      }
    }
  }

  method FetchNext(file: array<Byte>, repo: Repo, net: Net, tries: nat, outs: seq<Output>, l: Layout, i: nat, c: Cache, ghost done: set<nat>)
    returns (r: Outcome, next: Cache)
    requires Setup(repo, net, outs, l) && file.Length == l.start + Offset(l.sizes, |outs|) && i < |outs| && Coherent(PartsOf(repo), c)
    requires AllWritten(PartsOf(repo), outs, l, file[..], done)
    modifies file
    ensures Coherent(PartsOf(repo), next) && file[..l.start] == old(file[..l.start])
    ensures Explains(repo, net, tries, outs, l, i, r)
    ensures r.Done? ==> AllWritten(PartsOf(repo), outs, l, file[..], done + {i})
  {
    r, next := FetchOne(file, repo, net, tries, outs, l, i, c);
    if r.Done? {
      MoreWritten(PartsOf(repo), outs, l, old(file[..]), file[..], done, i);
    }
  }

  function Elems(s: seq<nat>): set<nat> { set x | x in s }

  /** `fetch`: one job's outputs, with its own cache. */
  method Fetch(file: array<Byte>, repo: Repo, net: Net, tries: nat, outs: seq<Output>, l: Layout, idxs: seq<nat>, ghost done: set<nat>)
    returns (r: Outcome, ghost at: nat)
    requires Setup(repo, net, outs, l) && file.Length == l.start + Offset(l.sizes, |outs|)
    requires (forall k :: 0 <= k < |idxs| ==> idxs[k] < |outs|) && AllWritten(PartsOf(repo), outs, l, file[..], done)
    modifies file
    ensures file[..l.start] == old(file[..l.start])
    ensures r.Done? ==> AllWritten(PartsOf(repo), outs, l, file[..], done + Elems(idxs))
    ensures Explains(repo, net, tries, outs, l, at, r)
  {
    var cache, n := NoBlob, 0;
    ghost var now := done;
    while n < |idxs|
      invariant 0 <= n <= |idxs| && Coherent(PartsOf(repo), cache) && done <= now
      invariant forall k :: 0 <= k < n ==> idxs[k] in now
      invariant file[..l.start] == old(file[..l.start])
      invariant AllWritten(PartsOf(repo), outs, l, file[..], now)
    {
      r, cache := FetchNext(file, repo, net, tries, outs, l, idxs[n], cache, now);
      if !r.Done? { return r, idxs[n]; }
      now := now + {idxs[n]};
      n := n + 1;
    }
    FewerWritten(PartsOf(repo), outs, l, file[..], now, done + Elems(idxs));
    r, at := Done, 0;
  }

  lemma FewerWritten(remote: Remote, outs: seq<Output>, l: Layout, file: seq<Byte>, now: set<nat>, fewer: set<nat>)
    requires (forall i :: 0 <= i < |outs| ==> ValidOutput(remote, outs[i])) && AllWritten(remote, outs, l, file, now) && fewer <= now
    ensures AllWritten(remote, outs, l, file, fewer)
  {
  }

  /** The outputs of the first `g` jobs are done. */
  predicate Covers(jobs: seq<Job>, g: nat, done: set<nat>) {
    g <= |jobs| && forall h :: 0 <= h < g ==> Elems(jobs[h].idxs) <= done
  }

  lemma CoversMore(jobs: seq<Job>, g: nat, done: set<nat>)
    requires g < |jobs| && Covers(jobs, g, done)
    ensures Covers(jobs, g + 1, done + Elems(jobs[g].idxs))
  {
  }

  /** All jobs in turn, over a network that cuts replies short at will: if it succeeds, every
      planned tensor is in place, byte for byte; it stops only at an output whose read falls
      short of its range in all attempts, or whose bytes do not have the planned length. */
  method WriteOverlay(file: array<Byte>, repo: Repo, net: Net, tries: nat, outs: seq<Output>, l: Layout) returns (r: Outcome, ghost at: nat)
    requires Setup(repo, net, outs, l) && file.Length == l.start + Offset(l.sizes, |outs|)
    modifies file
    ensures file[..l.start] == old(file[..l.start])
    ensures r.Done? ==> forall i: nat :: i < |outs| ==> Written(PartsOf(repo), outs[i], l, file[..], i)
    ensures r.Done? ==> forall i: nat :: i < |outs| ==> |Bytes(PartsOf(repo), outs[i])| == l.sizes[i]
    ensures Explains(repo, net, tries, outs, l, at, r)
  {
    var jobs := GroupJobs(outs);
    ghost var done: set<nat> := {};
    var g := 0;
    while g < |jobs|
      invariant 0 <= g <= |jobs| && file[..l.start] == old(file[..l.start])
      invariant AllWritten(PartsOf(repo), outs, l, file[..], done)
      invariant Covers(jobs, g, done)
    {
      assert JobOk(outs, jobs[g], |outs|);
      r, at := Fetch(file, repo, net, tries, outs, l, jobs[g].idxs, done);
      if !r.Done? { return; }
      CoversMore(jobs, g, done);
      done := done + Elems(jobs[g].idxs);
      g := g + 1;
    }
    JobsCover(outs, jobs, done);
    AllLengths(PartsOf(repo), outs, l, file[..], done);
    r, at := Done, 0;
  }

  /** With every job done, every output is. */
  lemma JobsCover(outs: seq<Output>, jobs: seq<Job>, done: set<nat>)
    requires Grouped(outs, jobs, |outs|) && Covers(jobs, |jobs|, done)
    ensures forall i: nat :: i < |outs| ==> i in done
  {
    forall i: nat | i < |outs| ensures i in done {
      assert Listed(jobs, i);
      var g :| 0 <= g < |jobs| && i in jobs[g].idxs;
      assert i in Elems(jobs[g].idxs);
    }
  }

  lemma AllLengths(remote: Remote, outs: seq<Output>, l: Layout, file: seq<Byte>, done: set<nat>)
    requires |l.sizes| == |outs| && forall i: nat :: i < |outs| ==> ValidOutput(remote, outs[i])
    requires AllWritten(remote, outs, l, file, done) && forall i: nat :: i < |outs| ==> i in done
    ensures forall i: nat :: i < |outs| ==> Written(remote, outs[i], l, file, i)
    ensures forall i: nat :: i < |outs| ==> |Bytes(remote, outs[i])| == l.sizes[i]
  {
    forall i: nat | i < |outs| ensures |Bytes(remote, outs[i])| == l.sizes[i] {
      assert Written(remote, outs[i], l, file, i);
    }
  }
}
