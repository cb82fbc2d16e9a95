/** The K-pool tail seed of overlay/patch_kpool_tail_seed_stride.py: one kernel instance
    per prefill token copies the last `kpool` keys and scores of each request into its
    ring in a padded, strided tail cache. */
module KpoolSeed {
  import opened Common
  import opened Stores
  import Arith

  /** Ring size, head width and the view's strides: elements per block and per half. */
  datatype Layout = Layout(kpool: nat, head: nat, block: nat, half: nat)

  /** The strides leave room: a half holds the ring, a block holds both halves. */
  predicate Spacious(c: Layout) {
    c.kpool > 0 && c.head > 0 && c.half >= c.kpool * c.head && c.block >= c.half + c.kpool * c.head
  }

  /** Element `o` of ring entry `ring` in half `which` (0 keys, 1 scores) of a block. */
  function Address(c: Layout, blk: nat, which: nat, ring: nat, o: nat): nat {
    Arith.MulMono(c.block, 0, blk);
    Arith.MulMono(c.half, 0, which);
    Arith.MulMono(c.head, 0, ring);
    blk * c.block + which * c.half + ring * c.head + o
  }

  predicate InRing(c: Layout, which: nat, ring: nat, o: nat) { which < 2 && ring < c.kpool && o < c.head }

  /** Offset inside a half. */
  lemma RingOffset(c: Layout, ring: nat, o: nat)
    requires c.head > 0 && ring < c.kpool && o < c.head
    ensures 0 <= ring * c.head + o < c.kpool * c.head
  {
    Arith.MulMono(c.head, 0, ring);
    Arith.MulMono(c.head, ring + 1, c.kpool);
    Arith.OneMore(ring, c.head);
  }

  lemma BlockOffset(c: Layout, which: nat, ring: nat, o: nat)
    requires Spacious(c) && InRing(c, which, ring, o)
    ensures 0 <= which * c.half + ring * c.head + o < c.block
  {
    RingOffset(c, ring, o);
    if which == 0 {
      assert which * c.half == 0;
    } else {
      assert which * c.half == c.half;
    }
  }

  /** With spacious strides, different entries never share an address. */
  lemma AddressesDiffer(c: Layout, blk: nat, w: nat, ring: nat, o: nat, blk2: nat, w2: nat, ring2: nat, o2: nat)
    requires Spacious(c) && InRing(c, w, ring, o) && InRing(c, w2, ring2, o2)
    requires Address(c, blk, w, ring, o) == Address(c, blk2, w2, ring2, o2)
    ensures blk == blk2 && w == w2 && ring == ring2 && o == o2
  {
    BlockOffset(c, w, ring, o);
    BlockOffset(c, w2, ring2, o2);
    var x := Address(c, blk, w, ring, o);
    Arith.DivUnique(x, c.block, blk, w * c.half + ring * c.head + o);
    Arith.DivUnique(x, c.block, blk2, w2 * c.half + ring2 * c.head + o2);
    RingOffset(c, ring, o);
    RingOffset(c, ring2, o2);
    HalvesDiffer(c, w, ring * c.head + o, w2, ring2 * c.head + o2);
    Arith.DivUnique(ring * c.head + o, c.head, ring, o);
    Arith.DivUnique(ring2 * c.head + o2, c.head, ring2, o2);
  }

  lemma HalvesDiffer(c: Layout, w: nat, r: nat, w2: nat, r2: nat)
    requires w < 2 && w2 < 2 && r < c.half && r2 < c.half && w * c.half + r == w2 * c.half + r2
    ensures w == w2 && r == r2
  {
    if w == 0 { assert w * c.half == 0; } else { assert w * c.half == c.half; }
    if w2 == 0 { assert w2 * c.half == 0; } else { assert w2 * c.half == c.half; }
  }

  // ----- the batch -----

  /** One request's share of the prefill batch: its tail block, the position of its first
      token, and how many tokens it has. */
  datatype Seg = Seg(blk: nat, pos: nat, len: nat)

  /** Requests with distinct tail blocks, followed by padding. */
  predicate DistinctBlocks(segs: seq<Seg>) { forall a, b :: 0 <= a < b < |segs| ==> segs[a].blk != segs[b].blk }

  /** Index of the first token of request `k`. */
  function First(segs: seq<Seg>, k: nat): nat
    requires k <= |segs|
  {
    if k == 0 then 0 else First(segs, k - 1) + segs[k - 1].len
  }

  function SlotOf(c: Layout, g: Seg, j: nat): nat
    requires c.kpool > 0
  {
    Arith.MulMono(c.kpool, 0, g.blk);
    g.blk * c.kpool + (g.pos + j) % c.kpool
  }

  /** The slot map the scheduler hands over: contiguous tokens per request, then padding. */
  ghost predicate IsSlotMap(c: Layout, segs: seq<Seg>, tslot: seq<int>)
    requires c.kpool > 0
  {
    && First(segs, |segs|) <= |tslot|
    && (forall k: nat, j: nat :: TokenOf(segs, k, j) ==> First(segs, k) + j < |tslot| && tslot[First(segs, k) + j] == SlotOf(c, segs[k], j))
    && (forall i :: First(segs, |segs|) <= i < |tslot| ==> tslot[i] < 0)
  }

  predicate TokenOf(segs: seq<Seg>, k: nat, j: nat) { k < |segs| && j < segs[k].len }

  lemma {:induction false} FirstMonotone(segs: seq<Seg>, a: nat, b: nat)
    requires a <= b <= |segs|
    ensures First(segs, a) <= First(segs, b)
  {
    if a < b {
      FirstMonotone(segs, a, b - 1);
    }
  }

  /** Every real token belongs to exactly one request. */
  lemma {:induction false} Locate(segs: seq<Seg>, n: nat, i: nat) returns (k: nat, j: nat)
    requires n <= |segs| && i < First(segs, n)
    ensures k < n && TokenOf(segs, k, j) && i == First(segs, k) + j
  {
    if i >= First(segs, n - 1) {
      k, j := n - 1, i - First(segs, n - 1);
    } else {
      k, j := Locate(segs, n - 1, i);
    }
  }

  // ----- the kernel -----

  /** Does instance `i` write? It is a real token whose successor `kpool` ahead belongs to
      another block, is padding, or lies past the batch. */
  predicate Writes(c: Layout, tslot: seq<int>, i: nat)
    requires c.kpool > 0 && i < |tslot|
  {
    && tslot[i] >= 0
    && var ahead := if i + c.kpool < |tslot| then tslot[i + c.kpool] else -1;
       !(ahead >= 0 && ahead / c.kpool == tslot[i] / c.kpool)
  }

  /** Destination of element `o` of half `which` of instance `i`. */
  function Target(c: Layout, tslot: seq<int>, i: nat, which: nat, o: nat): nat
    requires c.kpool > 0 && i < |tslot| && tslot[i] >= 0
  {
    Address(c, tslot[i] / c.kpool, which, tslot[i] % c.kpool, o)
  }

  lemma SlotParts(c: Layout, g: Seg, j: nat)
    requires c.kpool > 0
    ensures SlotOf(c, g, j) / c.kpool == g.blk && SlotOf(c, g, j) % c.kpool == (g.pos + j) % c.kpool < c.kpool
  {
    Arith.DivUnique(SlotOf(c, g, j), c.kpool, g.blk, (g.pos + j) % c.kpool);
  }

  /** Exactly the last `kpool` tokens of each request write. */
  lemma LastTokensWrite(c: Layout, segs: seq<Seg>, tslot: seq<int>, k: nat, j: nat)
    requires c.kpool > 0 && IsSlotMap(c, segs, tslot) && DistinctBlocks(segs) && TokenOf(segs, k, j)
    ensures First(segs, k) + j < |tslot|
    ensures Writes(c, tslot, First(segs, k) + j) <==> j + c.kpool >= segs[k].len
  {
    var i := First(segs, k) + j;
    SlotParts(c, segs[k], j);
    if j + c.kpool < segs[k].len {
      assert TokenOf(segs, k, j + c.kpool);
      SlotParts(c, segs[k], j + c.kpool);
    } else if i + c.kpool < |tslot| && tslot[i + c.kpool] >= 0 {
      AheadIsOther(c, segs, tslot, k, j);
    }
  }

  lemma AheadIsOther(c: Layout, segs: seq<Seg>, tslot: seq<int>, k: nat, j: nat)
    requires c.kpool > 0 && IsSlotMap(c, segs, tslot) && DistinctBlocks(segs) && TokenOf(segs, k, j) && j + c.kpool >= segs[k].len
    requires First(segs, k) + j + c.kpool < |tslot| && tslot[First(segs, k) + j + c.kpool] >= 0
    ensures tslot[First(segs, k) + j + c.kpool] / c.kpool != segs[k].blk
  {
    var i := First(segs, k) + j + c.kpool;
    assert i < First(segs, |segs|);
    var k2, j2 := Locate(segs, |segs|, i);
    if k2 <= k {
      FirstMonotone(segs, k2 + 1, k + 1);
      assert false;
    }
    SlotParts(c, segs[k2], j2);
  }

  /** A writing instance and the ring entry it fills. */
  lemma Writer(c: Layout, segs: seq<Seg>, tslot: seq<int>, i: nat) returns (k: nat, j: nat)
    requires c.kpool > 0 && IsSlotMap(c, segs, tslot) && DistinctBlocks(segs) && i < |tslot| && Writes(c, tslot, i)
    ensures TokenOf(segs, k, j) && i == First(segs, k) + j && j + c.kpool >= segs[k].len
    ensures tslot[i] / c.kpool == segs[k].blk && tslot[i] % c.kpool == (segs[k].pos + j) % c.kpool
  {
    k, j := Locate(segs, |segs|, i);
    LastTokensWrite(c, segs, tslot, k, j);
    SlotParts(c, segs[k], j);
  }

  lemma SameResidue(x: nat, y: nat, d: nat)
    requires d > 0 && x <= y < x + d && x % d == y % d
    ensures x == y
  {
    Arith.DivMulBounds(x, d);
    Arith.DivMulBounds(y, d);
    assert y - x == (y / d - x / d) * d;
    if y / d > x / d {
      Arith.MulLower(d, y / d - x / d);
      assert false;
    }
    Arith.DivMono(x, y, d);
  }

  /** Main theorem: two instances that write never share a ring entry. */
  lemma WritersDiffer(c: Layout, segs: seq<Seg>, tslot: seq<int>, i: nat, i2: nat)
    requires c.kpool > 0 && IsSlotMap(c, segs, tslot) && DistinctBlocks(segs)
    requires i < |tslot| && i2 < |tslot| && Writes(c, tslot, i) && Writes(c, tslot, i2)
    requires tslot[i] / c.kpool == tslot[i2] / c.kpool && tslot[i] % c.kpool == tslot[i2] % c.kpool
    ensures i == i2
  {
    var k, j := Writer(c, segs, tslot, i);
    var k2, j2 := Writer(c, segs, tslot, i2);
    assert k == k2;
    var p := segs[k].pos;
    if j <= j2 { SameResidue(p + j, p + j2, c.kpool); } else { SameResidue(p + j2, p + j, c.kpool); }
  }

  // ----- the launch -----

  /** One element store: instance, half, element. */
  datatype Event = Event(i: nat, which: nat, o: nat)

  /** A launch: the slot map and each token's key and score. */
  datatype Launch<T> = Launch(tslot: seq<int>, key: (nat, nat) -> T, score: (nat, nat) -> T)

  predicate Issues<T>(c: Layout, x: Launch<T>, e: Event)
    requires c.kpool > 0
  {
    e.i < |x.tslot| && Writes(c, x.tslot, e.i) && e.which < 2 && e.o < c.head
  }

  function StoreOf<T>(c: Layout, x: Launch<T>, e: Event): Store<T>
    requires c.kpool > 0 && Issues(c, x, e)
  {
    Store(Target(c, x.tslot, e.i, e.which, e.o), if e.which == 0 then x.key(e.i, e.o) else x.score(e.i, e.o))
  }

  predicate Comes<T(==)>(c: Layout, x: Launch<T>, s: Store<T>, e: Event)
    requires c.kpool > 0
  {
    Issues(c, x, e) && s == StoreOf(c, x, e)
  }

  /** `ss` is some interleaving of the stores that all instances issue. */
  ghost predicate IsInterleaving<T>(c: Layout, x: Launch<T>, ss: seq<Store<T>>)
    requires c.kpool > 0
  {
    && (forall s :: s in ss ==> exists e :: Comes(c, x, s, e))
    && (forall e :: Issues(c, x, e) ==> StoreOf(c, x, e) in ss)
  }

  ghost predicate LegalLaunch<T>(c: Layout, segs: seq<Seg>, x: Launch<T>) {
    Spacious(c) && IsSlotMap(c, segs, x.tslot) && DistinctBlocks(segs)
  }

  lemma TargetsDiffer(c: Layout, tslot: seq<int>, e: Event, f: Event)
    requires Spacious(c) && e.i < |tslot| && f.i < |tslot| && tslot[e.i] >= 0 && tslot[f.i] >= 0
    requires e.which < 2 && e.o < c.head && f.which < 2 && f.o < c.head
    requires Target(c, tslot, e.i, e.which, e.o) == Target(c, tslot, f.i, f.which, f.o)
    ensures tslot[e.i] / c.kpool == tslot[f.i] / c.kpool && tslot[e.i] % c.kpool == tslot[f.i] % c.kpool
    ensures e.which == f.which && e.o == f.o
  {
    AddressesDiffer(c, tslot[e.i] / c.kpool, e.which, tslot[e.i] % c.kpool, e.o,
                    tslot[f.i] / c.kpool, f.which, tslot[f.i] % c.kpool, f.o);
  }

  /** No two stores of a launch hit the same element. */
  lemma EventsDiffer<T>(c: Layout, segs: seq<Seg>, x: Launch<T>, e: Event, f: Event)
    requires LegalLaunch(c, segs, x) && Issues(c, x, e) && Issues(c, x, f) && StoreOf(c, x, e).at == StoreOf(c, x, f).at
    ensures e == f
  {
    TargetsDiffer(c, x.tslot, e, f);
    WritersDiffer(c, segs, x.tslot, e.i, f.i);
  }

  lemma InterleavingAgrees<T(!new)>(c: Layout, segs: seq<Seg>, x: Launch<T>, ss: seq<Store<T>>)
    requires LegalLaunch(c, segs, x) && IsInterleaving(c, x, ss)
    ensures Agree(ss)
  {
    forall a, b | a in ss && b in ss && a.at == b.at ensures a == b {
      var e :| Comes(c, x, a, e);
      var f :| Comes(c, x, b, f);
      EventsDiffer(c, segs, x, e, f);
    }
  }

  /** Ring entry of token `j` of request `k`. */
  function Entry(c: Layout, segs: seq<Seg>, k: nat, j: nat, which: nat, o: nat): nat
    requires c.kpool > 0 && k < |segs|
  {
    Address(c, segs[k].blk, which, (segs[k].pos + j) % c.kpool, o)
  }

  /** Main theorem: whatever order the parallel stores land in, each request's ring holds
      the keys and scores of exactly its last `kpool` tokens. */
  lemma RingHoldsLastTokens<T(!new)>(c: Layout, segs: seq<Seg>, x: Launch<T>, mem: seq<T>, ss: seq<Store<T>>, k: nat, j: nat, o: nat)
    requires LegalLaunch(c, segs, x) && IsInterleaving(c, x, ss)
    requires TokenOf(segs, k, j) && j + c.kpool >= segs[k].len && o < c.head
    requires Entry(c, segs, k, j, 0, o) < |mem| && Entry(c, segs, k, j, 1, o) < |mem|
    ensures Run(mem, ss)[Entry(c, segs, k, j, 0, o)] == x.key(First(segs, k) + j, o)
    ensures Run(mem, ss)[Entry(c, segs, k, j, 1, o)] == x.score(First(segs, k) + j, o)
  {
    var i := First(segs, k) + j;
    InterleavingAgrees(c, segs, x, ss);
    LastTokensWrite(c, segs, x.tslot, k, j);
    SlotParts(c, segs[k], j);
    RunReads(mem, ss, StoreOf(c, x, Event(i, 0, o)));
    RunReads(mem, ss, StoreOf(c, x, Event(i, 1, o)));
  }

  /** Main theorem: nothing else changes. An element outside every ring entry of a last
      token keeps its value. */
  lemma RestUnchanged<T(!new)>(c: Layout, segs: seq<Seg>, x: Launch<T>, mem: seq<T>, ss: seq<Store<T>>, p: nat)
    requires LegalLaunch(c, segs, x) && IsInterleaving(c, x, ss) && p < |mem|
    requires forall k: nat, j: nat, w: nat, o: nat ::
               TokenOf(segs, k, j) && j + c.kpool >= segs[k].len && w < 2 && o < c.head ==> Entry(c, segs, k, j, w, o) != p
    ensures Run(mem, ss)[p] == mem[p]
  {
    forall n | 0 <= n < |ss| ensures ss[n].at != p {
      assert ss[n] in ss;
      var e :| Comes(c, x, ss[n], e);
      var k, j := Writer(c, segs, x.tslot, e.i);
      assert Entry(c, segs, k, j, e.which, e.o) != p;
    }
    RunElsewhere(mem, ss, p);
  }

  /** Main theorem: the order does not matter at all. */
  lemma OrderIrrelevant<T(!new)>(c: Layout, segs: seq<Seg>, x: Launch<T>, mem: seq<T>, a: seq<Store<T>>, b: seq<Store<T>>)
    requires LegalLaunch(c, segs, x) && IsInterleaving(c, x, a) && IsInterleaving(c, x, b)
    ensures Run(mem, a) == Run(mem, b)
  {
    InterleavingAgrees(c, segs, x, a);
    forall s | s in a ensures s in b { StoreInBoth(c, x, a, b, s); }
    forall s | s in b ensures s in a { StoreInBoth(c, x, b, a, s); }
    AnyOrder(mem, a, b);
  }

  lemma StoreInBoth<T>(c: Layout, x: Launch<T>, a: seq<Store<T>>, b: seq<Store<T>>, s: Store<T>)
    requires c.kpool > 0 && IsInterleaving(c, x, a) && IsInterleaving(c, x, b) && s in a
    ensures s in b
  {
    var e :| Comes(c, x, s, e);
    assert StoreOf(c, x, e) in b;
  }

  // ----- the strides matter -----

  /** The dense address that the unpadded kernel used. */
  function DenseAddress(c: Layout, blk: nat, which: nat, ring: nat, o: nat): int {
    (blk * 2 * c.kpool + which * c.kpool + ring) * c.head + o
  }

  /** Dense and strided key addresses agree exactly in block 0 or when the block stride
      is dense. */
  lemma DenseExactlyWhenUnpadded(c: Layout, blk: nat, ring: nat)
    ensures DenseAddress(c, blk, 0, ring, 0) == Address(c, blk, 0, ring, 0) <==> blk == 0 || c.block == 2 * c.kpool * c.head
  {
    assert (blk * 2 * c.kpool + ring) * c.head == blk * (2 * c.kpool * c.head) + ring * c.head;
    var d := c.block - 2 * c.kpool * c.head;
    assert blk * c.block == blk * (2 * c.kpool * c.head) + blk * d;
    if blk > 0 && d != 0 {
      if d > 0 { Arith.MulLower(blk, d); } else { Arith.MulLower(blk, -d); assert blk * d == -(blk * -d); }
    }
  }

  // ----- one token's stores and the row view, on a flat buffer -----

  /** `padded_k_element` and, for the unpadded form, `dense_k_element`. */
  function KeyBase(c: Layout, padded: bool, blk: nat, ring: nat): int {
    if padded then blk * c.block + ring * c.head else (blk * 2 * c.kpool + ring) * c.head
  }

  function ScoreBase(c: Layout, padded: bool, blk: nat, ring: nat): int {
    KeyBase(c, padded, blk, ring) + (if padded then c.half else c.kpool * c.head)
  }

  datatype Outcome = Stored | BadLength | BadShape | OutOfBuffer

  predicate GoodShape(c: Layout, padded: bool) { c.head >= 1 && (if padded then c.block >= 1 else c.kpool >= 1) }

  predicate InSpan(at: int, len: nat, p: int) { at <= p < at + len }

  /** `view_row`: the row of one half and ring entry. */
  function ViewRow<T>(mem: seq<T>, c: Layout, blk: nat, which: nat, ring: nat): seq<T>
    requires Address(c, blk, which, ring, 0) + c.head <= |mem|
  {
    mem[Address(c, blk, which, ring, 0)..Address(c, blk, which, ring, 0) + c.head]
  }

  /** `apply_seed`: both rows are written, or the buffer is left alone. */
  method ApplySeed<T>(backing: array<T>, c: Layout, padded: bool, blk: nat, ring: nat, key: seq<T>, score: seq<T>) returns (r: Outcome)
    modifies backing
    ensures r == (if |key| != c.head || |score| != c.head then BadLength
                  else if !GoodShape(c, padded) then BadShape
                  else if ScoreBase(c, padded, blk, ring) + c.head > backing.Length then OutOfBuffer else Stored)
    ensures r != Stored ==> backing[..] == old(backing[..])
    ensures r == Stored ==> forall p: nat :: p < backing.Length ==>
              backing[p] == if InSpan(ScoreBase(c, padded, blk, ring), c.head, p) then score[p - ScoreBase(c, padded, blk, ring)]
                            else if InSpan(KeyBase(c, padded, blk, ring), c.head, p) then key[p - KeyBase(c, padded, blk, ring)]
                            else old(backing[p])
    ensures r == Stored && padded && c.half >= c.head && Address(c, blk, 1, ring, 0) + c.head <= backing.Length ==>
              Address(c, blk, 0, ring, 0) + c.head <= backing.Length
              && ViewRow(backing[..], c, blk, 0, ring) == key && ViewRow(backing[..], c, blk, 1, ring) == score
  {
    if |key| != c.head || |score| != c.head { return BadLength; }
    if !GoodShape(c, padded) { return BadShape; }
    var kBase, sBase := KeyBase(c, padded, blk, ring), ScoreBase(c, padded, blk, ring);
    BasesOrdered(c, padded, blk, ring);
    if kBase < 0 || sBase < kBase || sBase + c.head > backing.Length { return OutOfBuffer; }
    Splice(backing, kBase, key);
    Splice(backing, sBase, score);
    return Stored;
  }

  lemma BasesOrdered(c: Layout, padded: bool, blk: nat, ring: nat)
    ensures 0 <= KeyBase(c, padded, blk, ring) <= ScoreBase(c, padded, blk, ring)
    ensures padded ==> KeyBase(c, padded, blk, ring) == Address(c, blk, 0, ring, 0) && ScoreBase(c, padded, blk, ring) == Address(c, blk, 1, ring, 0)
  {
    Arith.MulMono(c.block, 0, blk);
    Arith.MulMono(c.head, 0, ring);
    Arith.MulMono(c.head, 0, c.kpool);
    Arith.MulMono(c.kpool, 0, blk * 2);
    Arith.MulMono(c.head, 0, blk * 2 * c.kpool + ring);
  }

  method Splice<T>(backing: array<T>, at: nat, data: seq<T>)
    requires at + |data| <= backing.Length
    modifies backing
    ensures forall o: nat :: o < |data| ==> backing[at + o] == data[o]
    ensures forall p: nat :: p < backing.Length && !(at <= p < at + |data|) ==> backing[p] == old(backing[p])
  {
    var o := 0;
    while o < |data|
      invariant 0 <= o <= |data|
      invariant forall n: nat :: n < o ==> backing[at + n] == data[n]
      invariant forall p: nat :: p < backing.Length && !(at <= p < at + o) ==> backing[p] == old(backing[p])
    {
      backing[at + o] := data[o];
      o := o + 1;
    }
  }

  /** The kernel, one instance after the other: one of the interleavings. */
  method RunLaunch<T>(tail: array<T>, c: Layout, ghost segs: seq<Seg>, x: Launch<T>) returns (ghost ss: seq<Store<T>>)
    requires LegalLaunch(c, segs, x)
    requires forall i: nat, w: nat, o: nat :: Issues(c, x, Event(i, w, o)) ==> StoreOf(c, x, Event(i, w, o)).at < tail.Length
    modifies tail
    ensures IsInterleaving(c, x, ss) && tail[..] == Run(old(tail[..]), ss)
  {
    ss := [];
    var i := 0;
    while i < |x.tslot|
      invariant 0 <= i <= |x.tslot| && tail[..] == Run(old(tail[..]), ss)
      invariant forall s :: s in ss ==> exists e :: Comes(c, x, s, e)
      invariant forall e: Event :: e.i < i && Issues(c, x, e) ==> StoreOf(c, x, e) in ss
    {
      if Writes(c, x.tslot, i) {
        ghost var more := Instance(tail, c, x, i, old(tail[..]), ss);
        ss := ss + more;
      }
      i := i + 1;
    }
  }

  /** The two stores of one instance, element by element. */
  method Instance<T>(tail: array<T>, c: Layout, x: Launch<T>, i: nat, ghost mem: seq<T>, ghost before: seq<Store<T>>) returns (ghost more: seq<Store<T>>)
    requires c.kpool > 0 && i < |x.tslot| && Writes(c, x.tslot, i) && |mem| == tail.Length
    requires forall w: nat, o: nat :: Issues(c, x, Event(i, w, o)) ==> StoreOf(c, x, Event(i, w, o)).at < tail.Length
    requires tail[..] == Run(mem, before)
    modifies tail
    ensures tail[..] == Run(mem, before + more)
    ensures forall s :: s in more ==> exists e :: Comes(c, x, s, e)
    ensures forall e: Event :: e.i == i && Issues(c, x, e) ==> StoreOf(c, x, e) in more
  {
    more := [];
    var o := 0;
    assert before + more == before;
    while o < c.head
      invariant 0 <= o <= c.head && tail[..] == Run(mem, before + more)
      invariant forall s :: s in more ==> exists e :: Comes(c, x, s, e)
      invariant forall e: Event :: e.i == i && e.o < o && Issues(c, x, e) ==> StoreOf(c, x, e) in more
    {
      var k, s := Event(i, 0, o), Event(i, 1, o);
      Put(tail, StoreOf(c, x, k), mem, before + more);
      Put(tail, StoreOf(c, x, s), mem, before + more + [StoreOf(c, x, k)]);
      assert before + more + [StoreOf(c, x, k)] + [StoreOf(c, x, s)] == before + (more + [StoreOf(c, x, k), StoreOf(c, x, s)]);
      assert Comes(c, x, StoreOf(c, x, k), k) && Comes(c, x, StoreOf(c, x, s), s);
      more := more + [StoreOf(c, x, k), StoreOf(c, x, s)];
      o := o + 1;
    }
  }

  method Put<T>(tail: array<T>, s: Store<T>, ghost mem: seq<T>, ghost before: seq<Store<T>>)
    requires s.at < tail.Length == |mem| && tail[..] == Run(mem, before)
    modifies tail
    ensures tail[..] == Run(mem, before + [s])
  {
    RunSnoc(mem, before, s);
    tail[s.at] := s.v;
  }
}
