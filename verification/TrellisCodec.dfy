/** The EXL3 trellis bit packing of kernel_lab/exl3/reference.py. A tile holds 256 states
    of `bits` bits in 16 spans of 16; each span is one number, written as `bits` 16-bit
    words, and adjacent words are swapped on store. Shifts and masks of the source's
    unbounded integers are division and remainder by powers of two. */
module TrellisCodec {
  import opened Common
  import opened Positional
  import Arith

  const WORD := 0x1_0000
  const SPANS := 16
  const STATES := 256

  datatype Result = Ok(tiles: seq<seq<nat>>) | BadBits | BadShape | StateTooLarge

  /** One more than the largest state, `1 << bits`. */
  function Radix(bits: nat): (r: nat)
    ensures r > 0
  {
    Pow(2, bits)
  }

  predicate ValidBits(bits: nat) { 1 <= bits <= 8 }

  predicate ValidTile(v: seq<nat>, bits: nat) { |v| == STATES && Below(v, Radix(bits)) }

  predicate ValidWords(w: seq<nat>, bits: nat) { |w| == SPANS * bits && Below(w, WORD) }

  /** Both notations of a span cover the same numbers. */
  lemma SameRange(bits: nat)
    ensures Pow(Radix(bits), SPANS) == Pow(WORD, bits)
  {
    assert Pow(2, 16) == WORD by { Pow16(); }
    PowPow(2, bits, 16);
    PowPow(2, 16, bits);
  }

  lemma Pow16()
    ensures Pow(2, 16) == WORD
  {
    PowAdd(2, 8, 8);
    PowAdd(2, 4, 4);
    assert Pow(2, 4) == 16;
  }

  function PackSpan(states: seq<nat>, bits: nat): (w: seq<nat>)
    ensures |w| == bits
  {
    Digits(Num(states, Radix(bits)), WORD, bits)
  }

  function UnpackSpan(words: seq<nat>, bits: nat): (v: seq<nat>)
    ensures |v| == SPANS
  {
    Digits(Num(words, WORD), Radix(bits), SPANS)
  }

  lemma UnpackPackSpan(states: seq<nat>, bits: nat)
    requires |states| == SPANS && Below(states, Radix(bits))
    ensures UnpackSpan(PackSpan(states, bits), bits) == states && Below(PackSpan(states, bits), WORD)
  {
    DigitsOfNum(states, Radix(bits));
    SameRange(bits);
    NumOfDigits(Num(states, Radix(bits)), WORD, bits);
    DigitsBelow(Num(states, Radix(bits)), WORD, bits);
  }

  lemma PackUnpackSpan(words: seq<nat>, bits: nat)
    requires |words| == bits && Below(words, WORD)
    ensures PackSpan(UnpackSpan(words, bits), bits) == words && Below(UnpackSpan(words, bits), Radix(bits))
  {
    DigitsOfNum(words, WORD);
    SameRange(bits);
    NumOfDigits(Num(words, WORD), Radix(bits), SPANS);
    DigitsBelow(Num(words, WORD), Radix(bits), SPANS);
  }

  // ----- tiles -----

  /** Piece `s` of a sequence cut into sixteen pieces of `len`. */
  function Piece(x: seq<nat>, len: nat, s: nat): (p: seq<nat>)
    requires s < SPANS && |x| == SPANS * len
    ensures |p| == len
  {
    PieceEnds(len, s);
    x[s * len..s * len + len]
  }

  lemma PieceEnds(len: nat, s: nat)
    requires s < SPANS
    ensures 0 <= s * len <= s * len + len <= SPANS * len
  {
    Arith.MulMono(len, s + 1, SPANS);
    Arith.OneMore(s, len);
    Arith.MulMono(len, 0, s);
  }

  /** Position `j` lies in piece `j / len`. */
  lemma PieceIndex(len: nat, j: nat)
    requires j < SPANS * len
    ensures len > 0 && j / len < SPANS && j == j / len * len + j % len
  {
    Arith.MulMono(SPANS, 0, len);
    HeadFits(j, len, SPANS);
  }

  lemma PieceAt(x: seq<nat>, len: nat, s: nat, i: nat)
    requires s < SPANS && |x| == SPANS * len && i < len
    ensures 0 <= s * len + i < |x| && Piece(x, len, s)[i] == x[s * len + i]
    ensures (s * len + i) / len == s && (s * len + i) % len == i
  {
    PieceEnds(len, s);
    Arith.DivUnique(s * len + i, len, s, i);
  }

  /** Word `j` of the packing, before the swap. */
  function PackAt(v: seq<nat>, bits: nat, j: nat): nat
    requires |v| == STATES && j < SPANS * bits
  {
    PieceIndex(bits, j);
    PackSpan(Piece(v, SPANS, j / bits), bits)[j % bits]
  }

  /** State `j` of the unpacking. */
  function UnpackAt(w: seq<nat>, bits: nat, j: nat): nat
    requires |w| == SPANS * bits && j < STATES
  {
    UnpackSpan(Piece(w, bits, j / SPANS), bits)[j % SPANS]
  }

  predicate PackedAt(w: seq<nat>, v: seq<nat>, bits: nat, j: nat) {
    |v| == STATES && j < |w| == SPANS * bits && w[j] == PackAt(v, bits, j)
  }

  predicate UnpackedAt(v: seq<nat>, w: seq<nat>, bits: nat, j: nat) {
    |w| == SPANS * bits && j < |v| == STATES && v[j] == UnpackAt(w, bits, j)
  }

  function PackRaw(v: seq<nat>, bits: nat): (w: seq<nat>)
    requires |v| == STATES
    ensures |w| == SPANS * bits && forall j: nat :: j < |w| ==> PackedAt(w, v, bits, j)
  {
    seq(SPANS * bits, j requires 0 <= j < SPANS * bits => PackAt(v, bits, j))
  }

  function UnpackRaw(w: seq<nat>, bits: nat): (v: seq<nat>)
    requires |w| == SPANS * bits
    ensures |v| == STATES && forall j: nat :: j < |v| ==> UnpackedAt(v, w, bits, j)
  {
    seq(STATES, j requires 0 <= j < STATES => UnpackAt(w, bits, j))
  }

  lemma PieceOfPack(v: seq<nat>, bits: nat, s: nat)
    requires |v| == STATES && s < SPANS
    ensures Piece(PackRaw(v, bits), bits, s) == PackSpan(Piece(v, SPANS, s), bits)
  {
    var w := PackRaw(v, bits);
    var a, b := Piece(w, bits, s), PackSpan(Piece(v, SPANS, s), bits);
    forall i: nat | i < bits ensures a[i] == b[i] {
      PieceAt(w, bits, s, i);
      assert PackedAt(w, v, bits, s * bits + i);
    }
    assert a == b;
  }

  lemma PieceOfUnpack(w: seq<nat>, bits: nat, s: nat)
    requires |w| == SPANS * bits && s < SPANS
    ensures Piece(UnpackRaw(w, bits), SPANS, s) == UnpackSpan(Piece(w, bits, s), bits)
  {
    var v := UnpackRaw(w, bits);
    var a, b := Piece(v, SPANS, s), UnpackSpan(Piece(w, bits, s), bits);
    forall i: nat | i < SPANS ensures a[i] == b[i] {
      PieceAt(v, SPANS, s, i);
      assert UnpackedAt(v, w, bits, s * SPANS + i);
    }
    assert a == b;
  }

  lemma PieceBelow(x: seq<nat>, len: nat, s: nat, base: nat)
    requires s < SPANS && |x| == SPANS * len && Below(x, base)
    ensures Below(Piece(x, len, s), base)
  {
    forall i: nat | i < len ensures Piece(x, len, s)[i] < base { PieceAt(x, len, s, i); }
  }

  lemma SamePieces(x: seq<nat>, y: seq<nat>, len: nat)
    requires |x| == |y| == SPANS * len && forall s: nat :: s < SPANS ==> Piece(x, len, s) == Piece(y, len, s)
    ensures x == y
  {
    forall j: nat | j < |x| ensures x[j] == y[j] {
      PieceIndex(len, j);
      PieceAt(x, len, j / len, j % len);
      PieceAt(y, len, j / len, j % len);
      assert Piece(x, len, j / len) == Piece(y, len, j / len);
    }
  }

  /** Exchange words 0 and 1, 2 and 3, and so on. */
  function Swap(w: seq<nat>): (r: seq<nat>)
    requires |w| % 2 == 0
    ensures |r| == |w|
    ensures forall i :: 0 <= i < |w| ==> r[i] == w[if i % 2 == 0 then i + 1 else i - 1]
  {
    seq(|w|, i requires 0 <= i < |w| => w[if i % 2 == 0 then i + 1 else i - 1])
  }

  lemma SwapTwice(w: seq<nat>)
    requires |w| % 2 == 0
    ensures Swap(Swap(w)) == w
  {
  }

  lemma SwapBelow(w: seq<nat>, base: nat)
    requires |w| % 2 == 0 && Below(w, base)
    ensures Below(Swap(w), base)
  {
  }

  lemma EvenWords(bits: nat)
    ensures SPANS * bits % 2 == 0
  {
    Arith.DivUnique(SPANS * bits, 2, 8 * bits, 0);
  }

  /** One tile of `pack_trellis`. */
  function PackTile(v: seq<nat>, bits: nat): (w: seq<nat>)
    requires |v| == STATES
    ensures |w| == SPANS * bits
  {
    EvenWords(bits);
    Swap(PackRaw(v, bits))
  }

  /** One tile of `unpack_trellis`. */
  function UnpackTile(w: seq<nat>, bits: nat): (v: seq<nat>)
    requires |w| == SPANS * bits
    ensures |v| == STATES
  {
    EvenWords(bits);
    UnpackRaw(Swap(w), bits)
  }

  lemma RawRoundTrip(v: seq<nat>, bits: nat)
    requires ValidTile(v, bits)
    ensures UnpackRaw(PackRaw(v, bits), bits) == v
  {
    var raw := PackRaw(v, bits);
    forall s: nat | s < SPANS ensures Piece(UnpackRaw(raw, bits), SPANS, s) == Piece(v, SPANS, s) {
      PieceOfUnpack(raw, bits, s);
      PieceOfPack(v, bits, s);
      PieceBelow(v, SPANS, s, Radix(bits));
      UnpackPackSpan(Piece(v, SPANS, s), bits);
    }
    SamePieces(UnpackRaw(raw, bits), v, SPANS);
  }

  lemma RawRoundTripBack(w: seq<nat>, bits: nat)
    requires ValidWords(w, bits)
    ensures PackRaw(UnpackRaw(w, bits), bits) == w
  {
    var v := UnpackRaw(w, bits);
    forall s: nat | s < SPANS ensures Piece(PackRaw(v, bits), bits, s) == Piece(w, bits, s) {
      PieceOfUnpack(w, bits, s);
      PieceOfPack(v, bits, s);
      PieceBelow(w, bits, s, WORD);
      PackUnpackSpan(Piece(w, bits, s), bits);
    }
    SamePieces(PackRaw(v, bits), w, bits);
  }

  /** Main theorem: every tile of in-range states survives packing, at every bitrate. */
  lemma UnpackOfPack(v: seq<nat>, bits: nat)
    requires ValidTile(v, bits)
    ensures UnpackTile(PackTile(v, bits), bits) == v
  {
    SwapTwice(PackRaw(v, bits));
    RawRoundTrip(v, bits);
  }

  /** Main theorem: every word pattern is the packing of the states it unpacks to. */
  lemma PackOfUnpack(w: seq<nat>, bits: nat)
    requires ValidWords(w, bits)
    ensures PackTile(UnpackTile(w, bits), bits) == w
  {
    SwapBelow(w, WORD);
    RawRoundTripBack(Swap(w), bits);
    SwapTwice(w);
  }

  // ----- the loops -----

  /** `n >> s`. */
  function Shr(n: nat, s: nat): nat { n / Pow(2, s) }

  lemma WordShift(n: nat, bits: nat, word: nat)
    requires word < bits
    ensures Shr(n, 16 * (bits - 1 - word)) % WORD == Digit(n, WORD, bits, word)
  {
    Pow16();
    PowPow(2, 16, bits - 1 - word);
  }

  lemma StateShift(n: nat, bits: nat, index: nat)
    requires index < SPANS
    ensures bits * (SPANS - 1 - index) >= 0
    ensures Shr(n, bits * (SPANS - 1 - index)) % Radix(bits) == Digit(n, Radix(bits), SPANS, index)
  {
    PowPow(2, bits, SPANS - 1 - index);
  }

  /** `acc = (acc << width) | digit` over a run of digits. */
  method Accumulate(d: seq<nat>, base: nat) returns (acc: nat)
    ensures acc == Num(d, base)
  {
    acc := 0;
    var i := 0;
    while i < |d|
      invariant 0 <= i <= |d| && acc == Num(d[..i], base)
    {
      NumSnoc(d[..i], d[i], base);
      assert d[..i + 1] == d[..i] + [d[i]];
      acc := acc * base + d[i];
      i := i + 1;
    }
    assert d[..i] == d;
  }

  /** The words of one span. */
  method WriteSpan(raw: array<nat>, v: seq<nat>, bits: nat, span: nat)
    requires |v| == STATES && span < SPANS && raw.Length == SPANS * bits
    modifies raw
    ensures forall j: nat :: j < raw.Length ==> raw[j] == if span * bits <= j < span * bits + bits then PackAt(v, bits, j) else old(raw[j])
  {
    PieceEnds(bits, span);
    var acc := Accumulate(Piece(v, SPANS, span), Radix(bits));
    var word := 0;
    while word < bits
      invariant 0 <= word <= bits
      invariant forall j: nat :: j < raw.Length ==> raw[j] == if span * bits <= j < span * bits + word then PackAt(v, bits, j) else old(raw[j])
    {
      WordShift(acc, bits, word);
      Arith.DivUnique(span * bits + word, bits, span, word);
      raw[span * bits + word] := Shr(acc, 16 * (bits - 1 - word)) % WORD;
      word := word + 1;
    }
  }

  method PackOne(v: seq<nat>, bits: nat) returns (w: seq<nat>)
    requires |v| == STATES
    ensures |w| == SPANS * bits && w == PackTile(v, bits)
  {
    Arith.MulMono(bits, 0, SPANS);
    var raw := new nat[SPANS * bits](_ => 0);
    var span := 0;
    while span < SPANS
      invariant 0 <= span <= SPANS
      invariant forall j: nat :: j < raw.Length && j < span * bits ==> raw[j] == PackAt(v, bits, j)
    {
      WriteSpan(raw, v, bits, span);
      Arith.OneMore(span, bits);
      span := span + 1;
    }
    EvenWords(bits);
    assert raw[..] == PackRaw(v, bits) by {
      var p := PackRaw(v, bits);
      forall j: nat | j < |p| ensures raw[j] == p[j] { assert PackedAt(p, v, bits, j); }
    }
    w := Swap(raw[..]);
  }

  /** The states of one span. */
  method ReadSpan(decoded: array<nat>, w: seq<nat>, bits: nat, span: nat)
    requires |w| == SPANS * bits && span < SPANS && decoded.Length == STATES
    modifies decoded
    ensures forall j: nat :: j < STATES ==> decoded[j] == if span * SPANS <= j < span * SPANS + SPANS then UnpackAt(w, bits, j) else old(decoded[j])
  {
    var acc := Accumulate(Piece(w, bits, span), WORD);
    var index := 0;
    while index < SPANS
      invariant 0 <= index <= SPANS
      invariant forall j: nat :: j < STATES ==> decoded[j] == if span * SPANS <= j < span * SPANS + index then UnpackAt(w, bits, j) else old(decoded[j])
    {
      StateShift(acc, bits, index);
      Arith.DivUnique(span * SPANS + index, SPANS, span, index);
      decoded[span * SPANS + index] := Shr(acc, bits * (SPANS - 1 - index)) % Radix(bits);
      index := index + 1;
    }
  }

  method UnpackOne(w: seq<nat>, bits: nat) returns (v: seq<nat>)
    requires |w| == SPANS * bits
    ensures |v| == STATES && v == UnpackTile(w, bits)
  {
    EvenWords(bits);
    var raw := Swap(w);
    var decoded := new nat[STATES](_ => 0);
    var span := 0;
    while span < SPANS
      invariant 0 <= span <= SPANS
      invariant forall j: nat :: j < STATES && j < span * SPANS ==> decoded[j] == UnpackAt(raw, bits, j)
    {
      ReadSpan(decoded, raw, bits, span);
      span := span + 1;
    }
    v := decoded[..];
    ghost var u := UnpackRaw(raw, bits);
    forall j: nat | j < STATES ensures v[j] == u[j] { assert UnpackedAt(u, raw, bits, j); }
    assert v == u;
  }

  /** `pack_trellis` on a batch of tiles. */
  method PackTrellis(encoded: seq<seq<nat>>, bits: nat) returns (r: Result)
    ensures r == if exists k :: 0 <= k < |encoded| && |encoded[k]| != STATES then BadShape
                 else if !ValidBits(bits) then BadBits
                 else if exists k :: 0 <= k < |encoded| && !Below(encoded[k], Radix(bits)) then StateTooLarge
                 else Ok(seq(|encoded|, k requires 0 <= k < |encoded| && |encoded[k]| == STATES => PackTile(encoded[k], bits)))
  {
    if exists k :: 0 <= k < |encoded| && |encoded[k]| != STATES { return BadShape; }
    if !ValidBits(bits) { return BadBits; }
    if exists k :: 0 <= k < |encoded| && !Below(encoded[k], Radix(bits)) { return StateTooLarge; }
    var out := [];
    var k := 0;
    while k < |encoded|
      invariant 0 <= k <= |encoded| && |out| == k
      invariant forall i :: 0 <= i < k ==> out[i] == PackTile(encoded[i], bits)
    {
      var w := PackOne(encoded[k], bits);
      out := out + [w];
      k := k + 1;
    }
    r := Ok(out);
  }

  /** `unpack_trellis` on a batch of tiles. */
  method UnpackTrellis(packed: seq<seq<nat>>, bits: nat) returns (r: Result)
    ensures r == if !ValidBits(bits) || exists k :: 0 <= k < |packed| && |packed[k]| != SPANS * bits then BadShape
                 else Ok(seq(|packed|, k requires 0 <= k < |packed| && |packed[k]| == SPANS * bits => UnpackTile(packed[k], bits)))
  {
    if !ValidBits(bits) || exists k :: 0 <= k < |packed| && |packed[k]| != SPANS * bits { return BadShape; }
    var out := [];
    var k := 0;
    while k < |packed|
      invariant 0 <= k <= |packed| && |out| == k
      invariant forall i :: 0 <= i < k ==> out[i] == UnpackTile(packed[i], bits)
    {
      var v := UnpackOne(packed[k], bits);
      out := out + [v];
      k := k + 1;
    }
    r := Ok(out);
  }
}
