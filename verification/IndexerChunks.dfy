/** The sparse-indexer prefill splitter and its right-sized workspace
    (overlay/patch_indexer_workspace.py). */
module IndexerChunks {
  import opened Common
  import Arith

  /** One chunk: requests [first, last) and, of their query rows, rows [from, to). */
  datatype Chunk = Chunk(first: nat, last: nat, from: nat, to: nat)

  /** Workspace entries and logits elements that one chunk may use. */
  datatype Limits = Limits(workspace: nat, logits: nat)

  predicate Fits(l: Limits, m: nat, n: nat) { n <= l.workspace && m * n <= l.logits }

  /** A group of requests: its end, query rows and compressed keys. */
  datatype Group = Group(end: nat, rows: nat, keys: nat)

  /** Take requests while they fit. */
  function Grow(q: seq<nat>, s: seq<nat>, l: Limits, g: Group): (r: Group)
    requires |q| == |s| && g.end <= |s|
    ensures g.end <= r.end <= |s|
    decreases |s| - g.end
  {
    if g.end < |s| && Fits(l, g.rows + q[g.end], g.keys + s[g.end]) then
      Grow(q, s, l, Group(g.end + 1, g.rows + q[g.end], g.keys + s[g.end]))
    else g
  }

  /** The group that starts at `start`: at least one request. */
  function GroupAt(q: seq<nat>, s: seq<nat>, l: Limits, start: nat): (r: Group)
    requires |q| == |s| && start < |s|
    ensures start < r.end <= |s|
  {
    var g := Grow(q, s, l, Group(start, 0, 0));
    if g.end == start then Group(start + 1, q[start], s[start]) else g
  }

  /** Rows per chunk of a group. */
  function RowsPerChunk(l: Limits, g: Group): (k: nat)
    ensures k >= 1
  {
    if g.keys > 0 then Max(1, l.logits / g.keys) else Max(1, g.rows)
  }

  /** The chunks of one group from row `off` on. */
  function SubChunks(start: nat, g: Group, step: nat, off: nat): seq<Chunk>
    requires step >= 1
    decreases g.rows - off
  {
    if off >= g.rows then []
    else [Chunk(start, g.end, off, off + Min(step, g.rows - off))] + SubChunks(start, g, step, off + step)
  }

  /** `split_prefill_chunks` from request `start` on. */
  function Chunks(q: seq<nat>, s: seq<nat>, l: Limits, start: nat): seq<Chunk>
    requires |q| == |s| && start <= |s|
    decreases |s| - start
  {
    if start == |s| then []
    else
      var g := GroupAt(q, s, l, start);
      SubChunks(start, g, RowsPerChunk(l, g), 0) + Chunks(q, s, l, g.end)
  }

  /** `split_prefill_chunks`. */
  method SplitPrefillChunks(s: seq<nat>, q: seq<nat>, workspace: nat, maxLogitsBytes: nat) returns (chunks: seq<Chunk>)
    requires |q| == |s|
    ensures chunks == Chunks(q, s, Limits(workspace, maxLogitsBytes / 4), 0)
  {
    var l := Limits(workspace, maxLogitsBytes / 4);
    chunks := [];
    var end := 0;
    while end < |s|
      invariant 0 <= end <= |s| && chunks + Chunks(q, s, l, end) == Chunks(q, s, l, 0)
    {
      var start := end;
      var g := TakeGroup(q, s, l, start);
      end := g.end;
      var step := RowsPerChunk(l, g);
      var subs := SplitRows(start, g, step);
      assert chunks + (subs + Chunks(q, s, l, end)) == (chunks + subs) + Chunks(q, s, l, end);
      chunks := chunks + subs;
    }
  }

  /** The greedy loop that takes one group of requests. */
  method TakeGroup(q: seq<nat>, s: seq<nat>, l: Limits, start: nat) returns (g: Group)
    requires |q| == |s| && start < |s|
    ensures g == GroupAt(q, s, l, start)
  {
    var end := start;
    var chunkM: nat, chunkN: nat := 0, 0;
    while end < |s|
      invariant start <= end <= |s| && Grow(q, s, l, Group(end, chunkM, chunkN)) == Grow(q, s, l, Group(start, 0, 0))
      invariant end == start ==> chunkM == 0 && chunkN == 0
    {
      var newM, newN := chunkM + q[end], chunkN + s[end];
      if newN <= l.workspace && newM * newN <= l.logits {
        chunkM, chunkN := newM, newN;
        end := end + 1;
      } else {
        break;
      }
    }
    if end == start {
      chunkM, chunkN := q[end], s[end];
      end := end + 1;
    }
    g := Group(end, chunkM, chunkN);
  }

  /** The sub-chunking loop over one group's rows. */
  method SplitRows(start: nat, g: Group, step: nat) returns (subs: seq<Chunk>)
    requires step >= 1
    ensures subs == SubChunks(start, g, step, 0)
  {
    subs := [];
    var off := 0;
    while off < g.rows
      invariant subs + SubChunks(start, g, step, off) == SubChunks(start, g, step, 0)
      decreases g.rows - off
    {
      var c := Chunk(start, g.end, off, off + Min(step, g.rows - off));
      assert subs + ([c] + SubChunks(start, g, step, off + step)) == (subs + [c]) + SubChunks(start, g, step, off + step);
      subs := subs + [c];
      off := off + step;
    }
  }

  // ----- the chunks partition the rows -----

  /** Query rows of the requests before `i`. */
  function RowsBefore(q: seq<nat>, i: nat): nat
    requires i <= |q|
  {
    if i == 0 then 0 else RowsBefore(q, i - 1) + q[i - 1]
  }

  lemma {:induction false} GrowSums(q: seq<nat>, s: seq<nat>, l: Limits, start: nat, g: Group)
    requires |q| == |s| && start <= g.end <= |s|
    requires RowsBefore(q, g.end) == RowsBefore(q, start) + g.rows && RowsBefore(s, g.end) == RowsBefore(s, start) + g.keys
    requires g.end > start ==> Fits(l, g.rows, g.keys)
    ensures var r := Grow(q, s, l, g);
            && RowsBefore(q, r.end) == RowsBefore(q, start) + r.rows && RowsBefore(s, r.end) == RowsBefore(s, start) + r.keys
            && (r.end > start ==> Fits(l, r.rows, r.keys))
    decreases |s| - g.end
  {
    if g.end < |s| && Fits(l, g.rows + q[g.end], g.keys + s[g.end]) {
      GrowSums(q, s, l, start, Group(g.end + 1, g.rows + q[g.end], g.keys + s[g.end]));
    }
  }

  /** A group's rows and keys are its requests', and it fits the limits or is a single
      request. */
  lemma GroupIs(q: seq<nat>, s: seq<nat>, l: Limits, start: nat)
    requires |q| == |s| && start < |s|
    ensures var g := GroupAt(q, s, l, start);
            && RowsBefore(q, g.end) == RowsBefore(q, start) + g.rows && RowsBefore(s, g.end) == RowsBefore(s, start) + g.keys
            && (Fits(l, g.rows, g.keys) || g.end == start + 1)
  {
    GrowSums(q, s, l, start, Group(start, 0, 0));
  }

  /** Counting rows across the whole batch, the chunks follow one another from row `at`
      to row `to`, none empty, each naming the requests its rows belong to. */
  predicate Tile(q: seq<nat>, chunks: seq<Chunk>, at: nat, to: nat)
    decreases |chunks|
  {
    if chunks == [] then at == to
    else
      var c := chunks[0];
      && c.first < c.last <= |q| && c.from < c.to <= RowsBefore(q, c.last) - RowsBefore(q, c.first)
      && RowsBefore(q, c.first) + c.from == at
      && Tile(q, chunks[1..], RowsBefore(q, c.first) + c.to, to)
  }

  lemma {:induction false} TileConcat(q: seq<nat>, a: seq<Chunk>, b: seq<Chunk>, at: nat, mid: nat, to: nat)
    requires Tile(q, a, at, mid) && Tile(q, b, mid, to)
    ensures Tile(q, a + b, at, to)
    decreases |a|
  {
    if a == [] {
      assert a + b == b;
    } else {
      assert (a + b)[0] == a[0] && (a + b)[1..] == a[1..] + b;
      TileConcat(q, a[1..], b, RowsBefore(q, a[0].first) + a[0].to, mid, to);
    }
  }

  lemma {:induction false} SubChunksTile(q: seq<nat>, start: nat, g: Group, step: nat, off: nat)
    requires step >= 1 && start < g.end <= |q| && RowsBefore(q, g.end) == RowsBefore(q, start) + g.rows
    ensures Tile(q, SubChunks(start, g, step, off), RowsBefore(q, start) + Min(off, g.rows), RowsBefore(q, start) + g.rows)
    decreases g.rows - off
  {
    if off < g.rows {
      SubChunksTile(q, start, g, step, off + step);
    }
  }

  /** Main theorem: the chunks cut all query rows of all requests into consecutive,
      non-empty, disjoint ranges. */
  lemma {:induction false} ChunksTile(q: seq<nat>, s: seq<nat>, l: Limits, start: nat)
    requires |q| == |s| && start <= |s|
    ensures Tile(q, Chunks(q, s, l, start), RowsBefore(q, start), RowsBefore(q, |q|))
    decreases |s| - start
  {
    if start < |s| {
      var g := GroupAt(q, s, l, start);
      GroupIs(q, s, l, start);
      SubChunksTile(q, start, g, RowsPerChunk(l, g), 0);
      ChunksTile(q, s, l, g.end);
      TileConcat(q, SubChunks(start, g, RowsPerChunk(l, g), 0), Chunks(q, s, l, g.end), RowsBefore(q, start), RowsBefore(q, g.end), RowsBefore(q, |q|));
    }
  }

  lemma {:induction false} RowsMonotone(q: seq<nat>, i: nat, j: nat)
    requires i <= j <= |q|
    ensures RowsBefore(q, i) <= RowsBefore(q, j)
  {
    if i < j {
      RowsMonotone(q, i, j - 1);
    }
  }

  /** A row of the batch lies in a chunk. */
  predicate Holds(q: seq<nat>, c: Chunk, row: nat) {
    c.first <= |q| && RowsBefore(q, c.first) + c.from <= row < RowsBefore(q, c.first) + c.to
  }

  lemma {:induction false} LaterRows(q: seq<nat>, chunks: seq<Chunk>, at: nat, to: nat, k: nat, row: nat)
    requires Tile(q, chunks, at, to) && k < |chunks| && Holds(q, chunks[k], row)
    ensures at <= row < to
    decreases |chunks|
  {
    if k > 0 {
      LaterRows(q, chunks[1..], RowsBefore(q, chunks[0].first) + chunks[0].to, to, k - 1, row);
    } else {
      TileAhead(q, chunks[1..], RowsBefore(q, chunks[0].first) + chunks[0].to, to);
    }
  }

  lemma {:induction false} TileAhead(q: seq<nat>, chunks: seq<Chunk>, at: nat, to: nat)
    requires Tile(q, chunks, at, to)
    ensures at <= to
    decreases |chunks|
  {
    if chunks != [] {
      TileAhead(q, chunks[1..], RowsBefore(q, chunks[0].first) + chunks[0].to, to);
    }
  }

  lemma {:induction false} TileFinds(q: seq<nat>, chunks: seq<Chunk>, at: nat, to: nat, row: nat) returns (k: nat)
    requires Tile(q, chunks, at, to) && at <= row < to
    ensures k < |chunks| && Holds(q, chunks[k], row)
    ensures forall j :: 0 <= j < |chunks| && j != k ==> !Holds(q, chunks[j], row)
    decreases |chunks|
  {
    var next := RowsBefore(q, chunks[0].first) + chunks[0].to;
    if row < next {
      k := 0;
      forall j | 0 < j < |chunks| ensures !Holds(q, chunks[j], row) {
        if Holds(q, chunks[j], row) {
          LaterRows(q, chunks[1..], next, to, j - 1, row);
          assert false;
        }
      }
    } else {
      k := TileFinds(q, chunks[1..], next, to, row);
      k := k + 1;
      forall j | 0 <= j < |chunks| && j != k ensures !Holds(q, chunks[j], row) {
        assert j > 0 ==> chunks[1..][j - 1] == chunks[j];
      }
    }
  }

  /** Main theorem: row `r` of request `i` is computed by exactly one chunk, and that
      chunk's slice contains the request. */
  lemma EveryRowOnce(q: seq<nat>, s: seq<nat>, l: Limits, i: nat, r: nat) returns (k: nat)
    requires |q| == |s| && i < |q| && r < q[i]
    ensures k < |Chunks(q, s, l, 0)|
    ensures var c := Chunks(q, s, l, 0)[k]; c.first <= i < c.last && Holds(q, c, RowsBefore(q, i) + r)
    ensures forall j :: 0 <= j < |Chunks(q, s, l, 0)| && j != k ==> !Holds(q, Chunks(q, s, l, 0)[j], RowsBefore(q, i) + r)
  {
    var chunks, row := Chunks(q, s, l, 0), RowsBefore(q, i) + r;
    ChunksTile(q, s, l, 0);
    RowsMonotone(q, i + 1, |q|);
    k := TileFinds(q, chunks, 0, RowsBefore(q, |q|), row);
    TileShape(q, chunks, 0, RowsBefore(q, |q|), k);
    var c := chunks[k];
    if c.last <= i {
      RowsMonotone(q, c.last, i);
    } else if i < c.first {
      RowsMonotone(q, i + 1, c.first);
    }
  }

  lemma {:induction false} TileShape(q: seq<nat>, chunks: seq<Chunk>, at: nat, to: nat, k: nat)
    requires Tile(q, chunks, at, to) && k < |chunks|
    ensures var c := chunks[k]; c.first < c.last <= |q| && c.from < c.to <= RowsBefore(q, c.last) - RowsBefore(q, c.first)
    decreases |chunks|
  {
    if k > 0 {
      TileShape(q, chunks[1..], RowsBefore(q, chunks[0].first) + chunks[0].to, to, k - 1);
    }
  }

  // ----- every chunk fits -----

  /** Keys gathered for a chunk. */
  function KeysOf(s: seq<nat>, c: Chunk): int
    requires c.first <= c.last <= |s|
  {
    RowsBefore(s, c.last) - RowsBefore(s, c.first)
  }

  /** The chunk's logits fit, or it is a single row; its keys fit the workspace, or it is
      a single request. */
  predicate Bounded(s: seq<nat>, l: Limits, c: Chunk) {
    && c.first < c.last <= |s| && c.from < c.to
    && ((c.to - c.from) * KeysOf(s, c) <= l.logits || c.to - c.from == 1)
    && (KeysOf(s, c) <= l.workspace || c.last == c.first + 1)
  }

  lemma StepFits(l: Limits, g: Group, rows: nat)
    requires rows <= RowsPerChunk(l, g) && (g.keys == 0 || rows >= 1)
    ensures rows * g.keys <= l.logits || rows == 1
  {
    if g.keys > 0 && rows > 1 {
      Arith.DivMulBounds(l.logits, g.keys);
      Arith.MulMono(g.keys, rows, l.logits / g.keys);
    }
  }

  lemma {:induction false} SubChunksBounded(s: seq<nat>, l: Limits, start: nat, g: Group, off: nat, k: nat)
    requires start < g.end <= |s| && RowsBefore(s, g.end) == RowsBefore(s, start) + g.keys
    requires Fits(l, g.rows, g.keys) || g.end == start + 1
    requires k < |SubChunks(start, g, RowsPerChunk(l, g), off)|
    ensures Bounded(s, l, SubChunks(start, g, RowsPerChunk(l, g), off)[k])
    decreases g.rows - off
  {
    var step := RowsPerChunk(l, g);
    if off < g.rows {
      if k > 0 {
        SubChunksBounded(s, l, start, g, off + step, k - 1);
      } else {
        StepFits(l, g, Min(step, g.rows - off));
      }
    }
  }

  /** Main theorem: every chunk fits the logits budget unless it is a single row, and the
      workspace unless it is a single request. */
  lemma {:induction false} ChunksBounded(q: seq<nat>, s: seq<nat>, l: Limits, start: nat, k: nat)
    requires |q| == |s| && start <= |s| && k < |Chunks(q, s, l, start)|
    ensures Bounded(s, l, Chunks(q, s, l, start)[k])
    decreases |s| - start
  {
    var g := GroupAt(q, s, l, start);
    var subs := SubChunks(start, g, RowsPerChunk(l, g), 0);
    GroupIs(q, s, l, start);
    if k < |subs| {
      SubChunksBounded(s, l, start, g, 0, k);
    } else {
      ChunksBounded(q, s, l, g.end, k - |subs|);
    }
  }

  // ----- the right-sized workspace -----

  const STOCK_MULTIPLIER := 40

  datatype Deployment = Deployment(maxModelLen: nat, maxSeqs: nat, maxBatchedTokens: nat, specTokens: nat, ratio: nat)

  function Stock(d: Deployment): nat { d.maxModelLen * STOCK_MULTIPLIER }

  function PerRequest(d: Deployment): nat
    requires d.ratio > 0
  {
    CeilDiv(d.maxModelLen + d.specTokens, d.ratio)
  }

  function MaxRequests(d: Deployment): nat { Max(1, Min(d.maxSeqs, d.maxBatchedTokens)) }

  /** `_glm53_rightsized_workspace_entries`. */
  function Rightsized(d: Deployment): nat {
    if d.ratio <= 1 then Stock(d)
    else
      Arith.MulMono(MaxRequests(d), 0, PerRequest(d));
      Min(PerRequest(d) * MaxRequests(d), Stock(d))
  }

  /** What the scheduler can hand the splitter: at most `maxSeqs` requests, each with a
      query token of the batch budget and a length the model and the draft allow, seen
      through the pool width. */
  ghost predicate LegalBatch(d: Deployment, q: seq<nat>, s: seq<nat>) {
    && |q| == |s| <= d.maxSeqs && RowsBefore(q, |q|) <= d.maxBatchedTokens
    && (forall i :: 0 <= i < |q| ==> q[i] >= 1)
    && (d.ratio > 0 ==> forall i :: 0 <= i < |s| ==> s[i] <= (d.maxModelLen + d.specTokens) / d.ratio)
  }

  lemma {:induction false} AtLeastOneRowEach(q: seq<nat>, k: nat)
    requires k <= |q| && forall i :: 0 <= i < |q| ==> q[i] >= 1
    ensures RowsBefore(q, k) >= k
  {
    if k > 0 {
      AtLeastOneRowEach(q, k - 1);
    }
  }

  lemma {:induction false} TotalAtMost(s: seq<nat>, per: nat, k: nat)
    requires k <= |s| && forall i :: 0 <= i < |s| ==> s[i] <= per
    ensures RowsBefore(s, k) <= k * per
  {
    if k > 0 {
      TotalAtMost(s, per, k - 1);
      Arith.OneMore(k - 1, per);
    }
  }

  /** A legal batch's keys fit the legal maximum. */
  lemma LegalTotal(d: Deployment, q: seq<nat>, s: seq<nat>)
    requires d.ratio > 1 && LegalBatch(d, q, s)
    ensures RowsBefore(s, |s|) <= PerRequest(d) * MaxRequests(d)
  {
    var span := d.maxModelLen + d.specTokens;
    AtLeastOneRowEach(q, |q|);
    Arith.DivMono(span, span + d.ratio - 1, d.ratio);
    TotalAtMost(s, PerRequest(d), |s|);
    Arith.MulMono(PerRequest(d), |s|, MaxRequests(d));
  }

  /** While all keys fit, the workspace limit never decides. */
  lemma {:induction false} GrowSame(q: seq<nat>, s: seq<nat>, a: Limits, b: Limits, start: nat, g: Group)
    requires |q| == |s| && start <= g.end <= |s| && a.logits == b.logits
    requires RowsBefore(s, |s|) <= a.workspace && RowsBefore(s, |s|) <= b.workspace
    requires RowsBefore(s, g.end) == RowsBefore(s, start) + g.keys
    ensures Grow(q, s, a, g) == Grow(q, s, b, g)
    decreases |s| - g.end
  {
    if g.end < |s| {
      RowsMonotone(s, g.end + 1, |s|);
      assert g.keys + s[g.end] <= RowsBefore(s, |s|);
      if g.rows + q[g.end] >= 0 && (g.rows + q[g.end]) * (g.keys + s[g.end]) <= a.logits {
        GrowSame(q, s, a, b, start, Group(g.end + 1, g.rows + q[g.end], g.keys + s[g.end]));
      }
    }
  }

  lemma {:induction false} ChunksSame(q: seq<nat>, s: seq<nat>, a: Limits, b: Limits, start: nat)
    requires |q| == |s| && start <= |s| && a.logits == b.logits
    requires RowsBefore(s, |s|) <= a.workspace && RowsBefore(s, |s|) <= b.workspace
    ensures Chunks(q, s, a, start) == Chunks(q, s, b, start)
    decreases |s| - start
  {
    if start < |s| {
      GrowSame(q, s, a, b, start, Group(start, 0, 0));
      ChunksSame(q, s, a, b, GroupAt(q, s, a, start).end);
    }
  }

  /** Main theorem: for every legal batch the right-sized workspace gives the same chunks
      as the stock one, and it is never larger. */
  lemma RightsizedChunksLikeStock(d: Deployment, q: seq<nat>, s: seq<nat>, logits: nat)
    requires LegalBatch(d, q, s)
    ensures Rightsized(d) <= Stock(d)
    ensures Chunks(q, s, Limits(Rightsized(d), logits), 0) == Chunks(q, s, Limits(Stock(d), logits), 0)
  {
    if Rightsized(d) < Stock(d) {
      LegalTotal(d, q, s);
      ChunksSame(q, s, Limits(Rightsized(d), logits), Limits(Stock(d), logits), 0);
    }
  }

  /** Sizing for the tokens of fewer requests than the scheduler may batch does change
      the chunks: two one-row requests of five keys, five entries. */
  lemma UndersizedChunksDiffer()
    ensures |Chunks([1, 1], [5, 5], Limits(5, 100), 0)| == 2 && |Chunks([1, 1], [5, 5], Limits(10, 100), 0)| == 1
  {
    var q, s := [1, 1], [5, 5];
    var a, b := Limits(5, 100), Limits(10, 100);
    assert Grow(q, s, a, Group(1, 1, 5)) == Group(1, 1, 5);
    assert GroupAt(q, s, a, 0) == Group(1, 1, 5) && RowsPerChunk(a, Group(1, 1, 5)) == 20;
    assert SubChunks(0, Group(1, 1, 5), 20, 20) == [] && SubChunks(0, Group(1, 1, 5), 20, 0) == [Chunk(0, 1, 0, 1)];
    assert Grow(q, s, a, Group(2, 1, 5)) == Group(2, 1, 5);
    assert GroupAt(q, s, a, 1) == Group(2, 1, 5);
    assert SubChunks(1, Group(2, 1, 5), 20, 20) == [] && SubChunks(1, Group(2, 1, 5), 20, 0) == [Chunk(1, 2, 0, 1)];
    assert Chunks(q, s, a, 2) == [] && Chunks(q, s, a, 1) == [Chunk(1, 2, 0, 1)];
    assert Grow(q, s, b, Group(2, 2, 10)) == Group(2, 2, 10) && Grow(q, s, b, Group(1, 1, 5)) == Group(2, 2, 10);
    assert GroupAt(q, s, b, 0) == Group(2, 2, 10) && RowsPerChunk(b, Group(2, 2, 10)) == 10;
    assert SubChunks(0, Group(2, 2, 10), 10, 10) == [] && SubChunks(0, Group(2, 2, 10), 10, 0) == [Chunk(0, 2, 0, 2)];
    assert Chunks(q, s, b, 2) == [];
  }
}
