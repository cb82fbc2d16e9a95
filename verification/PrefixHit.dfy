/** The hybrid prefix-cache hit of overlay/patch_hybrid_prefix_hit.py: every target group
    may shorten the candidate, the drafter may not, and a hit is backed up until the
    drafter's window is either proved cached or rebuilt from fresh tokens. */
module PrefixHit {
  import opened Common
  import Arith

  // ----- the replay clamp -----

  /** Tokens computed fresh after a hit; the final prompt token is always among them. */
  function Fresh(maxHit: nat, hit: nat): int { maxHit + 1 - hit }

  /** `_glm53_dflash_replay_safe_hit`. */
  function ReplaySafe(hit: nat, maxHit: nat, replay: nat, align: nat): nat
    requires align > 0
  {
    if hit == 0 || replay == 0 || Fresh(maxHit, hit) >= replay then hit
    else
      var deficit := replay - Fresh(maxHit, hit);
      Max(0, hit - (deficit + align - 1) / align * align)
  }

  lemma PagesCover(deficit: nat, align: nat)
    requires align > 0 && deficit > 0
    ensures var pages := (deficit + align - 1) / align;
            pages >= 1 && pages * align >= deficit && (pages - 1) * align < deficit && pages * align % align == 0
  {
    Arith.DivMulBounds(deficit + align - 1, align);
    var pages := (deficit + align - 1) / align;
    Arith.OneMore(pages - 1, align);
    Arith.MulMod(pages, align);
    Arith.DivLower(deficit + align - 1, align, 1);
  }

  lemma FewerPages(k: nat, pages: nat, align: nat)
    requires pages >= 1
    ensures if k >= pages then k * align >= pages * align else k * align <= (pages - 1) * align
  {
    Arith.MulMono(align, pages, Max(k, pages));
    Arith.MulMono(align, Min(k, pages - 1), pages - 1);
  }

  /** The clamp is the largest hit a whole number of alignments back that leaves enough
      fresh tokens; it is zero when no positive one does. */
  lemma ReplaySafeIsLargest(hit: nat, maxHit: nat, replay: nat, align: nat, k: nat)
    requires align > 0 && hit > 0
    ensures var r := ReplaySafe(hit, maxHit, replay, align);
            && r <= hit
            && (r > 0 ==> Fresh(maxHit, r) >= replay || replay == 0)
            && (r > 0 ==> (hit - r) % align == 0)
            && (hit - k * align > r ==> Fresh(maxHit, hit - k * align) < replay)
  {
    Arith.MulMono(align, 0, k);
    if replay > 0 && Fresh(maxHit, hit) < replay {
      var deficit := replay - Fresh(maxHit, hit);
      PagesCover(deficit, align);
      FewerPages(k, (deficit + align - 1) / align, align);
    } else {
      Arith.DivUnique(0, align, 0, 0);
    }
  }

  /** Last scheduler boundary before the final prompt token. */
  function LastBoundary(prompt: nat, block: nat): nat
    requires block > 0 && prompt > 0
  {
    Arith.MulMono(block, 0, (prompt - 1) / block);
    (prompt - 1) / block * block
  }

  /** The one earlier checkpoint that the per-group retention keeps for the replay
      (overlay/patch_apc_per_group_retention.py). */
  function RetainedPrior(prompt: nat, block: nat): int
    requires block > 0 && prompt > 0
  {
    LastBoundary(prompt, block) - block
  }

  /** A hit at the last boundary with too short a suffix is clamped to exactly the
      retained earlier checkpoint, if and only if the missing replay tokens fit one
      block. */
  lemma ClampLandsOnRetainedPrior(prompt: nat, block: nat, replay: nat)
    requires block > 0 && prompt > 0 && RetainedPrior(prompt, block) > 0
    requires Fresh(prompt - 1, LastBoundary(prompt, block)) < replay
    ensures ReplaySafe(LastBoundary(prompt, block), prompt - 1, replay, block) == RetainedPrior(prompt, block)
            <==> replay - Fresh(prompt - 1, LastBoundary(prompt, block)) <= block
  {
    var hit := LastBoundary(prompt, block);
    Arith.DivMulBounds(prompt - 1, block);
    var deficit := replay - Fresh(prompt - 1, hit);
    var pages := (deficit + block - 1) / block;
    PagesCover(deficit, block);
    if deficit <= block {
      Arith.DivUnique(deficit + block - 1, block, 1, deficit - 1);
    } else {
      Arith.MulMono(block, 2, Max(2, pages));
      assert pages >= 2 by { Arith.DivLower(deficit + block - 1, block, 2); }
    }
  }

  // ----- groups and lookups -----

  /** An attention group; `boundary` marks drafter groups looked up without lookahead. */
  datatype Group = Group(draft: bool, eagle: bool, boundary: bool, members: nat, blockSize: nat, window: nat)

  /** A manager's answer: the length it can serve and, per member, which of its blocks
      are null. `reused` marks a target prefix trimmed without a new lookup. */
  datatype Found = Found(len: nat, members: seq<seq<bool>>, reused: bool)

  /** Lookup of group `idx` at a candidate, with or without the lookahead pop; a reply
      may differ between the first pass and later ones. */
  type Oracle = (nat, nat, bool, bool) -> Found

  datatype Config = Config(groups: seq<Group>, replay: nat, kpool: nat, align: nat, schedBlock: nat)

  ghost predicate ValidConfig(c: Config) {
    && c.align > 0 && c.schedBlock > 0
    && (forall i :: 0 <= i < |c.groups| ==> c.groups[i].blockSize > 0 && c.groups[i].members > 0 && (!c.groups[i].draft ==> !c.groups[i].eagle))
  }

  /** Every member gets an answer, and target managers never serve more than asked. */
  ghost predicate Shrinks(c: Config, look: Oracle) {
    forall i: nat, curr: nat, first: bool, drop: bool :: i < |c.groups| ==>
      && |look(i, curr, first, drop).members| == c.groups[i].members
      && (!c.groups[i].draft ==> look(i, curr, first, drop).len <= curr)
  }

  predicate NoTargets(c: Config) { forall i :: 0 <= i < |c.groups| ==> c.groups[i].draft }

  /** Target managers answer multiples of `unit`, clamps move by multiples of it, and a
      prefix found earlier in the search serves any such candidate untrimmed: its block
      size divides the unit. */
  ghost predicate Aligned(c: Config, look: Oracle, unit: nat) {
    && unit > 0 && c.align % unit == 0 && c.schedBlock % unit == 0
    && forall i: nat, curr: nat, first: bool, drop: bool :: i < |c.groups| && !c.groups[i].draft ==>
         AlignedReply(look(i, curr, first, drop), curr, first, unit)
  }

  predicate AlignedReply(f: Found, curr: nat, first: bool, unit: nat)
    requires unit > 0
  {
    if f.reused then !first && (curr % unit == 0 ==> f.len == curr) else f.len % unit == 0
  }

  /** What the target groups alone make of a candidate, in group order. */
  function TargetPass(c: Config, look: Oracle, first: bool, curr: nat, i: nat): nat
    requires i <= |c.groups|
    decreases |c.groups| - i
  {
    if i == |c.groups| then curr
    else if c.groups[i].draft then TargetPass(c, look, first, curr, i + 1)
    else TargetPass(c, look, first, look(i, curr, first, false).len, i + 1)
  }

  lemma {:induction false} TargetPassShrinks(c: Config, look: Oracle, first: bool, curr: nat, i: nat)
    requires i <= |c.groups| && Shrinks(c, look)
    ensures TargetPass(c, look, first, curr, i) <= curr
    decreases |c.groups| - i
  {
    if i < |c.groups| {
      TargetPassShrinks(c, look, first, if c.groups[i].draft then curr else look(i, curr, first, false).len, i + 1);
    }
  }

  // ----- the bookkeeping of one call -----

  /** What is recorded per group, with ghost notes of where it came from: the candidate
      of the lookup that stored the blocks, and of the one that verified the group. */
  datatype Book = Book(blocks: seq<Option<seq<seq<bool>>>>, lens: seq<nat>, verified: set<nat>,
                       storedAt: seq<nat>, verifiedAt: seq<nat>, trimmed: bool)

  predicate Sized(c: Config, b: Book) {
    |b.blocks| == |b.lens| == |b.storedAt| == |b.verifiedAt| == |c.groups|
  }

  /** Every draft record is no shorter than the candidate it was looked up at, and that
      candidate is not below the current one; same for verifications, which are at the
      current candidate unless a reused prefix trimmed it. */
  ghost predicate Grounded(c: Config, b: Book, curr: nat) {
    && Sized(c, b)
    && (forall i :: 0 <= i < |c.groups| && c.groups[i].draft && b.blocks[i].Some? ==>
         b.lens[i] >= b.storedAt[i] >= curr && |b.blocks[i].value| == c.groups[i].members)
    && (forall i :: i in b.verified ==> i < |c.groups| && c.groups[i].draft && b.verifiedAt[i] >= curr)
    && (!b.trimmed ==> forall i :: i in b.verified ==> b.verifiedAt[i] == curr)
  }

  /** Outcome of a draft lookup; the candidate does not move. */
  function DraftStep(g: Group, b: Book, i: nat, curr: nat, drop: bool, f: Found): Book
    requires i < |b.blocks| == |b.lens| == |b.storedAt| == |b.verifiedAt|
  {
    var hit := f.len >= curr;
    var b1 := if g.boundary || drop then
                (if hit then b.(verified := b.verified + {i}, verifiedAt := b.verifiedAt[i := curr])
                 else b.(verified := b.verified - {i}))
              else if hit then b else b.(verified := {});
    if hit then b1.(blocks := b1.blocks[i := Some(f.members)], lens := b1.lens[i := f.len], storedAt := b1.storedAt[i := curr])
    else b1
  }

  /** Outcome of a target lookup: the candidate becomes its length; a shorter one voids
      earlier verifications, unless it was only trimmed. */
  function TargetStep(b: Book, i: nat, curr: nat, f: Found): Book
    requires i < |b.blocks| == |b.lens|
  {
    if f.reused then b.(trimmed := b.trimmed || f.len < curr)
    else b.(verified := if f.len < curr then {} else b.verified, blocks := b.blocks[i := Some(f.members)], lens := b.lens[i := f.len])
  }

  lemma DraftStepGrounded(c: Config, b: Book, i: nat, curr: nat, drop: bool, f: Found)
    requires i < |c.groups| && c.groups[i].draft && Grounded(c, b, curr) && |f.members| == c.groups[i].members
    ensures Grounded(c, DraftStep(c.groups[i], b, i, curr, drop, f), curr)
  {
  }

  lemma TargetStepGrounded(c: Config, b: Book, i: nat, curr: nat, f: Found)
    requires i < |c.groups| && !c.groups[i].draft && Grounded(c, b, curr) && f.len <= curr
    ensures Grounded(c, TargetStep(b, i, curr, f), f.len)
  {
  }

  // ----- is the drafter's window cached at this boundary? -----

  /** Blocks that the window can see back from the boundary. */
  function RequiredTail(g: Group): int
    requires g.blockSize > 0
  {
    (g.window - 1 + g.blockSize - 1) / g.blockSize
  }

  predicate CompleteTail(blocks: seq<bool>, required: int, expected: nat) {
    |blocks| == expected && required <= |blocks| && forall k :: |blocks| - required <= k < |blocks| && 0 <= k ==> !blocks[k]
  }

  predicate GroupReady(g: Group, b: Book, i: nat, curr: nat)
    requires g.blockSize > 0 && i < |b.blocks| == |b.lens|
  {
    && g.eagle && i in b.verified && RequiredTail(g) > 0 && b.lens[i] == curr && b.blocks[i].Some?
    && forall m :: 0 <= m < |b.blocks[i].value| ==> CompleteTail(b.blocks[i].value[m], RequiredTail(g), curr / g.blockSize)
  }

  predicate HasDraft(c: Config) { exists i :: 0 <= i < |c.groups| && c.groups[i].draft }

  ghost predicate Ready(c: Config, b: Book, curr: nat)
    requires ValidConfig(c) && Sized(c, b)
  {
    HasDraft(c) && forall i :: 0 <= i < |c.groups| && c.groups[i].draft ==> GroupReady(c.groups[i], b, i, curr)
  }

  method CheckReady(c: Config, b: Book, curr: nat) returns (ok: bool)
    requires ValidConfig(c) && Sized(c, b)
    ensures ok <==> Ready(c, b, curr)
  {
    var seen, ready, i := false, true, 0;
    while i < |c.groups| && ready
      invariant 0 <= i <= |c.groups|
      invariant ready ==> forall j :: 0 <= j < i && c.groups[j].draft ==> GroupReady(c.groups[j], b, j, curr)
      invariant !ready ==> exists j :: 0 <= j < |c.groups| && c.groups[j].draft && !GroupReady(c.groups[j], b, j, curr)
      invariant seen <==> exists j :: 0 <= j < i && c.groups[j].draft
    {
      if c.groups[i].draft {
        seen := true;
        ready := GroupReady(c.groups[i], b, i, curr);
      }
      i := i + 1;
    }
    ok := seen && ready;
  }

  /** Drop the draft records after a clamp. */
  function Discard(c: Config, b: Book): (d: Book)
    requires Sized(c, b)
    ensures Sized(c, d)
  {
    b.(blocks := seq(|c.groups|, i requires 0 <= i < |c.groups| => if c.groups[i].draft then None else b.blocks[i]),
       lens := seq(|c.groups|, i requires 0 <= i < |c.groups| => if c.groups[i].draft then 0 else b.lens[i]),
       verified := {}, trimmed := false)
  }

  function Empty(c: Config): (b: Book)
    ensures Sized(c, b)
  {
    var n := |c.groups|;
    Book(seq(n, _ => None), seq(n, _ => 0), {}, seq(n, _ => 0), seq(n, _ => 0), false)
  }

  /** The candidate is on the unit, or no target group has answered yet. */
  predicate OnUnit(c: Config, unit: nat, first: bool, curr: nat, i: nat)
    requires unit > 0 && i <= |c.groups|
  {
    curr % unit == 0 || ((forall j :: 0 <= j < i ==> c.groups[j].draft) && (first || NoTargets(c)))
  }

  lemma ReplyOnUnit(c: Config, look: Oracle, unit: nat, first: bool, curr: nat, i: nat, drop: bool)
    requires Aligned(c, look, unit) && i < |c.groups| && !c.groups[i].draft && OnUnit(c, unit, first, curr, i)
    ensures var f := look(i, curr, first, drop);
            OnUnit(c, unit, first, f.len, i + 1) && (f.reused ==> f.len == curr)
  {
    assert AlignedReply(look(i, curr, first, drop), curr, first, unit);
  }

  /** On aligned replies nothing was trimmed, and the candidate is on the unit. */
  ghost predicate Untrimmed(c: Config, look: Oracle, unit: nat, first: bool, b: Book, curr: nat, i: nat) {
    i <= |c.groups| && Aligned(c, look, unit) && !b.trimmed && OnUnit(c, unit, first, curr, i)
  }

  lemma UntrimmedStep(c: Config, look: Oracle, unit: nat, first: bool, b: Book, curr: nat, i: nat, drop: bool)
    requires i < |c.groups| && Sized(c, b) && Untrimmed(c, look, unit, first, b, curr, i)
    ensures var g := c.groups[i]; var f := look(i, curr, first, drop);
            if g.draft then Untrimmed(c, look, unit, first, DraftStep(g, b, i, curr, drop, f), curr, i + 1)
            else Untrimmed(c, look, unit, first, TargetStep(b, i, curr, f), f.len, i + 1)
  {
    if !c.groups[i].draft { ReplyOnUnit(c, look, unit, first, curr, i, drop); }
  }

  /** The records after the groups from `i` on were looked up at `curr`. */
  function PassBook(c: Config, look: Oracle, first: bool, curr: nat, b: Book, i: nat): (r: Book)
    requires i <= |c.groups| && Sized(c, b)
    ensures Sized(c, r)
    decreases |c.groups| - i
  {
    if i == |c.groups| then b
    else
      var g := c.groups[i];
      var drop := g.eagle && i !in b.verified && !g.boundary;
      var f := look(i, curr, first, drop);
      if g.draft then PassBook(c, look, first, curr, DraftStep(g, b, i, curr, drop, f), i + 1)
      else PassBook(c, look, first, f.len, TargetStep(b, i, curr, f), i + 1)
  }

  /** Some target group answers with a reused prefix shorter than the candidate. */
  function Trims(c: Config, look: Oracle, first: bool, curr: nat, i: nat): bool
    requires i <= |c.groups|
    decreases |c.groups| - i
  {
    i < |c.groups| &&
    if c.groups[i].draft then Trims(c, look, first, curr, i + 1)
    else
      var f := look(i, curr, first, false);
      (f.reused && f.len < curr) || Trims(c, look, first, f.len, i + 1)
  }

  /** From the candidate and records before group `i` the pass ends as from its start. */
  ghost predicate Midway(c: Config, look: Oracle, first: bool, start: nat, b: Book, curr: nat, b2: Book, i: nat) {
    && i <= |c.groups| && Sized(c, b) && Sized(c, b2)
    && TargetPass(c, look, first, curr, i) == TargetPass(c, look, first, start, 0)
    && PassBook(c, look, first, curr, b2, i) == PassBook(c, look, first, start, b, 0)
    && (b2.trimmed || Trims(c, look, first, curr, i)) == (b.trimmed || Trims(c, look, first, start, 0))
  }

  lemma MidwayStep(c: Config, look: Oracle, first: bool, start: nat, b: Book, curr: nat, b2: Book, i: nat)
    requires ValidConfig(c) && i < |c.groups| && Midway(c, look, first, start, b, curr, b2, i)
    ensures var g := c.groups[i]; var drop := g.eagle && i !in b2.verified && !g.boundary; var f := look(i, curr, first, drop);
            if g.draft then Midway(c, look, first, start, b, curr, DraftStep(g, b2, i, curr, drop, f), i + 1)
            else Midway(c, look, first, start, b, f.len, TargetStep(b2, i, curr, f), i + 1)
  {
  }

  /** One pass over the groups; `unit` is any common multiple of the block sizes. */
  method Pass(c: Config, look: Oracle, first: bool, start: nat, b: Book, ghost unit: nat) returns (curr: nat, b2: Book)
    requires ValidConfig(c) && Shrinks(c, look) && Grounded(c, b, start)
    ensures curr == TargetPass(c, look, first, start, 0) <= start
    ensures Grounded(c, b2, curr) && b2 == PassBook(c, look, first, start, b, 0)
    ensures b2.trimmed <==> b.trimmed || Trims(c, look, first, start, 0)
    ensures Untrimmed(c, look, unit, first, b, start, 0) ==> Untrimmed(c, look, unit, first, b2, curr, |c.groups|)
  {
    curr, b2 := start, b;
    ghost var lined := Untrimmed(c, look, unit, first, b, start, 0);
    TargetPassShrinks(c, look, first, start, 0);
    var i := 0;
    while i < |c.groups|
      invariant 0 <= i <= |c.groups| && Grounded(c, b2, curr)
      invariant Midway(c, look, first, start, b, curr, b2, i)
      invariant lined ==> Untrimmed(c, look, unit, first, b2, curr, i)
    {
      var g := c.groups[i];
      var drop := g.eagle && i !in b2.verified && !g.boundary;
      var f := look(i, curr, first, drop);
      MidwayStep(c, look, first, start, b, curr, b2, i);
      if lined { UntrimmedStep(c, look, unit, first, b2, curr, i, drop); }
      if g.draft {
        DraftStepGrounded(c, b2, i, curr, drop, f);
        b2 := DraftStep(g, b2, i, curr, drop, f);
      } else {
        TargetStepGrounded(c, b2, i, curr, f);
        b2 := TargetStep(b2, i, curr, f);
        curr := f.len;
      }
      i := i + 1;
    }
  }

  /** A cached window backs this hit: looked up at exactly the hit, complete and
      non-null, and verified there (or, after a trim, at a longer candidate). */
  ghost predicate WindowBacked(c: Config, b: Book, hit: nat)
    requires ValidConfig(c) && Sized(c, b)
  {
    HasDraft(c) && forall i :: 0 <= i < |c.groups| && c.groups[i].draft ==>
      && GroupReady(c.groups[i], b, i, hit) && b.storedAt[i] == hit && |b.blocks[i].value| == c.groups[i].members >= 1
      && b.verifiedAt[i] >= hit && (!b.trimmed ==> b.verifiedAt[i] == hit)
  }

  lemma ReadyIsBacked(c: Config, b: Book, hit: nat)
    requires ValidConfig(c) && Grounded(c, b, hit) && Ready(c, b, hit)
    ensures WindowBacked(c, b, hit)
  {
    forall i | 0 <= i < |c.groups| && c.groups[i].draft
      ensures GroupReady(c.groups[i], b, i, hit) && b.storedAt[i] == hit && |b.blocks[i].value| == c.groups[i].members >= 1 && b.verifiedAt[i] >= hit && (!b.trimmed ==> b.verifiedAt[i] == hit)
    {
      assert GroupReady(c.groups[i], b, i, hit);
    }
  }

  /** The tail is as long as the window needs: it reaches back over all tokens that the
      sliding attention still sees, and with one block less it would not. */
  lemma TailIsWindow(g: Group)
    requires g.blockSize > 0 && g.window >= 1
    ensures RequiredTail(g) * g.blockSize >= g.window - 1
    ensures RequiredTail(g) > 0 ==> (RequiredTail(g) - 1) * g.blockSize < g.window - 1
  {
    var x := g.window - 1 + g.blockSize - 1;
    Arith.DivMulBounds(x, g.blockSize);
    Arith.OneMore(RequiredTail(g) - 1, g.blockSize);
  }

  /** A backed window is really there: in every member of every draft group, every cached
      token that the drafter sees from the hit lies in a block that is not null. */
  lemma VisibleTokensCached(c: Config, b: Book, hit: nat, i: nat, m: nat, p: nat)
    requires ValidConfig(c) && Sized(c, b) && WindowBacked(c, b, hit)
    requires i < |c.groups| && c.groups[i].draft && m < c.groups[i].members
    requires hit < p + c.groups[i].window && p / c.groups[i].blockSize < hit / c.groups[i].blockSize
    ensures |b.blocks[i].value| == c.groups[i].members && |b.blocks[i].value[m]| == hit / c.groups[i].blockSize
    ensures p / c.groups[i].blockSize < |b.blocks[i].value[m]| && !b.blocks[i].value[m][p / c.groups[i].blockSize]
  {
    var g := c.groups[i];
    assert GroupReady(g, b, i, hit);
    var blocks := b.blocks[i].value[m];
    assert CompleteTail(blocks, RequiredTail(g), hit / g.blockSize);
    InTail(g, hit, p);
  }

  lemma InTail(g: Group, hit: nat, p: nat)
    requires g.blockSize > 0 && g.window >= 1 && hit < p + g.window
    ensures p / g.blockSize >= hit / g.blockSize - RequiredTail(g)
  {
    var d, t := g.blockSize, RequiredTail(g);
    TailIsWindow(g);
    Arith.DivMulBounds(hit, d);
    var q := hit / d - t;
    assert q * d == hit / d * d - t * d;
    if q >= 0 {
      Arith.DivLower(p, d, q);
    } else {
      Arith.DivLower(p, d, 0);
    }
  }

  /** Where a hit that the window does not back is moved: the clamp, or the preceding
      scheduler boundary if that is longer. */
  function BackUp(c: Config, hit: nat, maxHit: nat): nat
    requires ValidConfig(c)
  {
    var safe := ReplaySafe(hit, maxHit, c.replay, c.align);
    if hit % c.schedBlock != 0 then Max(safe, hit / c.schedBlock * c.schedBlock) else safe
  }

  lemma NoBackUpMeansFresh(c: Config, hit: nat, maxHit: nat)
    requires ValidConfig(c) && hit <= maxHit && BackUp(c, hit, maxHit) >= hit
    ensures hit == 0 || Fresh(maxHit, hit) >= c.replay
  {
    if hit > 0 {
      ReplaySafeIsLargest(hit, maxHit, c.replay, c.align, 0);
      Arith.DivMulBounds(hit, c.schedBlock);
      if hit % c.schedBlock != 0 {
        assert hit / c.schedBlock * c.schedBlock < hit;
      }
    }
  }

  lemma MultipleDifference(a: nat, k: nat, align: nat, unit: nat)
    requires unit > 0 && a % unit == 0 && align % unit == 0 && k * align <= a
    ensures (a - k * align) % unit == 0
  {
    var p, q := a / unit, align / unit;
    assert a == p * unit && align == q * unit;
    assert k * align == (k * q) * unit;
    assert a - k * align == (p - k * q) * unit;
    Arith.MulMod(p - k * q, unit);
  }

  lemma ReplaySafeAligned(hit: nat, maxHit: nat, replay: nat, align: nat, unit: nat)
    requires align > 0 && unit > 0 && align % unit == 0 && hit % unit == 0
    ensures ReplaySafe(hit, maxHit, replay, align) % unit == 0
  {
    var short := replay - Fresh(maxHit, hit);
    if hit > 0 && short > 0 {
      var pages := (short + align - 1) / align;
      Arith.DivLower(short + align - 1, align, 0);
      if pages * align <= hit {
        MultipleDifference(hit, pages, align, unit);
      }
    }
  }

  lemma BoundaryAligned(hit: nat, block: nat, unit: nat)
    requires block > 0 && unit > 0 && block % unit == 0
    ensures hit / block * block % unit == 0
  {
    var q := hit / block;
    assert block == block / unit * unit;
    assert q * block == (q * (block / unit)) * unit;
    Arith.MulMod(q * (block / unit), unit);
  }

  /** A clamp of an aligned candidate is aligned. */
  lemma BackUpAligned(c: Config, hit: nat, maxHit: nat, unit: nat)
    requires ValidConfig(c) && unit > 0 && c.align % unit == 0 && c.schedBlock % unit == 0 && hit % unit == 0
    ensures BackUp(c, hit, maxHit) % unit == 0
  {
    ReplaySafeAligned(hit, maxHit, c.replay, c.align, unit);
    BoundaryAligned(hit, c.schedBlock, unit);
  }

  /** A later pass starts on the unit, where the last one ended or a clamp moved it. */
  lemma NextUntrimmed(c: Config, look: Oracle, unit: nat, first: bool, b: Book, curr: nat, maxHit: nat)
    requires ValidConfig(c) && Sized(c, b) && Untrimmed(c, look, unit, first, b, curr, |c.groups|)
    ensures Untrimmed(c, look, unit, false, b, curr, 0)
    ensures BackUp(c, curr, maxHit) < curr ==> Untrimmed(c, look, unit, false, Discard(c, b), BackUp(c, curr, maxHit), 0)
  {
    if curr % unit == 0 {
      BackUpAligned(c, curr, maxHit, unit);
    }
  }

  // ----- a trim leaves an older verification standing -----

  function Whole(len: nat, blocks: nat): Found { Found(len, [seq(blocks, _ => false)], false) }

  /** Replies without a common unit: the drafter (group 0) serves every candidate, group 1
      has blocks of 10 and reuses what it found first, group 2 serves 45 tokens. */
  function OddReplies(i: nat, curr: nat, first: bool, drop: bool): Found {
    if i == 0 then Whole(curr, curr / 10)
    else if i == 1 then (if first then Whole(curr, 0) else Found(curr / 10 * 10, [[]], true))
    else Whole(Min(curr, 45), 0)
  }

  const ODD := Config([Group(true, true, false, 1, 10, 11), Group(false, false, false, 1, 10, 0), Group(false, false, false, 1, 5, 0)], 0, 1, 10, 10)

  lemma OddPass(first: bool, curr: nat, b: Book)
    requires Sized(ODD, b)
    ensures var r := PassBook(ODD, OddReplies, first, curr, b, 0); var drop := 0 !in b.verified;
            var mid := if first then curr else curr / 10 * 10;
            && r.storedAt == b.storedAt[0 := curr] && r.lens[0] == curr && r.blocks[0] == Some([seq(curr / 10, _ => false)])
            && r.verifiedAt == (if drop then b.verifiedAt[0 := curr] else b.verifiedAt)
            && r.verified == (if mid > 45 then {} else b.verified + {0})
            && r.trimmed == (b.trimmed || mid < curr)
            && TargetPass(ODD, OddReplies, first, curr, 0) == Min(mid, 45)
  {
    var f := OddReplies(0, curr, first, 0 !in b.verified);
    var b1 := DraftStep(ODD.groups[0], b, 0, curr, 0 !in b.verified, f);
    var f1 := OddReplies(1, curr, first, false);
    var b2 := TargetStep(b1, 1, curr, f1);
    var f2 := OddReplies(2, f1.len, first, false);
    var b3 := TargetStep(b2, 2, f1.len, f2);
    assert PassBook(ODD, OddReplies, first, f2.len, b3, 3) == b3;
    assert PassBook(ODD, OddReplies, first, f1.len, b2, 2) == b3;
    assert PassBook(ODD, OddReplies, first, curr, b1, 1) == b3;
    assert TargetPass(ODD, OddReplies, first, f2.len, 3) == f2.len;
    assert TargetPass(ODD, OddReplies, first, f1.len, 2) == f2.len;
    assert TargetPass(ODD, OddReplies, first, curr, 1) == f2.len;
  }

  /** Why the exact length needs aligned replies. Three passes from 50: the candidate falls
      to 45, then the reused prefix trims it to 40, then it stands; the window counts as
      ready at 40 although it was last verified at 45. */
  lemma TrimKeepsOldVerification()
    ensures ValidConfig(ODD)
    ensures var b1 := PassBook(ODD, OddReplies, true, 50, Empty(ODD), 0);
            var b2 := PassBook(ODD, OddReplies, false, 45, b1, 0);
            var b3 := PassBook(ODD, OddReplies, false, 40, b2, 0);
            && TargetPass(ODD, OddReplies, true, 50, 0) == 45 && TargetPass(ODD, OddReplies, false, 45, 0) == 40
            && TargetPass(ODD, OddReplies, false, 40, 0) == 40
            && b3.trimmed && Ready(ODD, b3, 40) && b3.verifiedAt[0] == 45
  {
    var b1 := PassBook(ODD, OddReplies, true, 50, Empty(ODD), 0);
    var b2 := PassBook(ODD, OddReplies, false, 45, b1, 0);
    var b3 := PassBook(ODD, OddReplies, false, 40, b2, 0);
    OddPass(true, 50, Empty(ODD));
    OddPass(false, 45, b1);
    OddPass(false, 40, b2);
    assert ODD.groups[0].draft;
    assert RequiredTail(ODD.groups[0]) == 1;
  }

  /** `find_longest_cache_hit`. On return every target group confirms the hit, the
      drafter has not shortened any pass, and the hit is zero, backed by a cached draft
      window, or short enough that the fresh tokens rebuild the window; a nonzero hit
      leaves a full K-pool to recompute. On lookups aligned to some `unit` no prefix is
      ever trimmed, so a backing window was verified at exactly the hit. */
  method FindHit(c: Config, maxHit: nat, look: Oracle, ghost unit: nat) returns (hit: nat, book: Book, first: bool)
    requires ValidConfig(c) && Shrinks(c, look)
    ensures hit <= maxHit && TargetPass(c, look, first, hit, 0) == hit
    ensures hit > 0 ==> Fresh(maxHit, hit) >= c.kpool
    ensures Sized(c, book) && (hit == 0 || WindowBacked(c, book, hit) || Fresh(maxHit, hit) >= c.replay)
    ensures Aligned(c, look, unit) ==> !book.trimmed
  {
    hit := Max(0, Min(maxHit, maxHit + 1 - c.kpool));
    book, first := Empty(c), true;
    while true
      invariant hit <= maxHit && (hit > 0 ==> Fresh(maxHit, hit) >= c.kpool)
      invariant Grounded(c, book, hit)
      invariant Aligned(c, look, unit) ==> Untrimmed(c, look, unit, first, book, hit, 0)
      decreases hit
    {
      var curr, b := Pass(c, look, first, hit, book, unit);
      book := b;
      if Aligned(c, look, unit) { NextUntrimmed(c, look, unit, first, book, curr, maxHit); }
      if curr >= hit {
        var ready := CheckReady(c, book, curr);
        if ready {
          ReadyIsBacked(c, book, hit);
          return;
        }
        var back := BackUp(c, curr, maxHit);
        if back >= curr {
          NoBackUpMeansFresh(c, curr, maxHit);
          return;
        }
        hit, book := back, Discard(c, book);
      } else {
        hit := curr;
      }
      first := false;
    }
  }
}
