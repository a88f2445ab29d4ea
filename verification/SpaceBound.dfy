/** How many pages the next-fit strategy can use for the bytes it carves. */
module SpaceBound {
  import opened Outcomes
  import opened Alignment
  import opened ShmHeap

  /** Bytes carved: sizes plus padding. */
  ghost function Carved(slots: seq<Slot>): nat {
    if slots == [] then 0 else
      var last := slots[|slots| - 1];
      Carved(slots[..|slots| - 1]) + last.pad + last.layout.size
  }

  /** Bytes asked for: sizes alone. */
  ghost function Requested(slots: seq<Slot>): nat {
    if slots == [] then 0 else Requested(slots[..|slots| - 1]) + slots[|slots| - 1].layout.size
  }

  /** Where page `p` starts when pages of this width are laid end to end. */
  function Base(width: nat, p: nat): nat {
    if p == 0 then 0 else Base(width, p - 1) + width
  }

  lemma {:induction false} BaseIsProduct(width: nat, m: nat)
    ensures Base(width, m) == m * width
  {
    if m > 0 {
      BaseIsProduct(width, m - 1);
      assert m * width == (m - 1) * width + width;
    }
  }

  /** Two successive pages hold more than a page's bytes: the second one's first slot did not fit the first. */
  ghost predicate Paired(pages: nat, width: nat, filled: nat, bytes: nat) {
    && (pages == 0 ==> filled == 0)
    && Base(width, pages / 2) + (if pages % 2 == 1 then filled else 0) <= bytes
  }

  ghost predicate Dense(h: Heap) {
    Paired(|h.pages|, h.pageSize + 1, h.freePtr, Carved(h.slots))
  }

  lemma CarvedAppend(slots: seq<Slot>, s: Slot)
    ensures Carved(slots + [s]) == Carved(slots) + s.pad + s.layout.size
  {
    assert (slots + [s])[..|slots|] == slots;
  }

  lemma Widen(p: int, width: nat)
    ensures p * (width + 1) == p * width + p
  {
  }

  /** A new page closes a pair if the number of pages was odd, and opens one otherwise. */
  lemma PageKeepsPairs(pages: nat, width: nat, filled: nat, bytes: nat, size: nat)
    requires Paired(pages, width, filled, bytes) && (pages == 0 || filled + size >= width)
    ensures Paired(pages + 1, width, size, bytes + size)
  {
    if pages % 2 == 1 {
      assert (pages + 1) / 2 == pages / 2 + 1;
    } else {
      assert (pages + 1) / 2 == pages / 2;
    }
  }

  lemma FillKeepsPairs(pages: nat, width: nat, filled: nat, bytes: nat, more: nat)
    requires Paired(pages, width, filled, bytes) && pages > 0
    ensures Paired(pages, width, filled + more, bytes + more)
  {
  }

  lemma GrowthKeepsDense(h: Heap, h': Heap, l: Layout, slots: seq<Slot>)
    requires Dense(h) && Grows(h, h', l, slots)
    ensures Dense(h')
  {
    if slots != [] {
      assert slots == [slots[0]];
      CarvedAppend(h.slots, slots[0]);
      if OnNewestPage(h, h', slots[0]) {
        FillKeepsPairs(|h.pages|, h.pageSize + 1, h.freePtr, Carved(h.slots), slots[0].pad + slots[0].layout.size);
      } else {
        PageKeepsPairs(|h.pages|, h.pageSize + 1, h.freePtr, Carved(h.slots), slots[0].layout.size);
      }
    }
  }

  lemma ConstructKeepsDense(h: Heap, r: Request)
    requires Inv(h) && Dense(h) && LegalRequest(h, r)
    ensures Dense(Construct(h, r).0)
  {
    var slots := ConstructDelta(h, r);
    GrowthKeepsDense(h, Construct(h, r).0, r.layout, slots);
  }

  lemma {:induction false} RunKeepsDense(h: Heap, rs: seq<Request>)
    requires Inv(h) && Dense(h) && LegalRun(h, rs)
    ensures Dense(Run(h, rs))
    decreases |rs|
  {
    if rs != [] {
      ConstructKeepsInv(h, rs[0]);
      ConstructKeepsDense(h, rs[0]);
      RunKeepsDense(Construct(h, rs[0]).0, rs[1..]);
    }
  }

  /** Each two pages cost at least a byte more than one page holds; so less than half is wasted. */
  ghost predicate WellFilled(pages: nat, pageSize: nat, bytes: nat) {
    && pages / 2 * (pageSize + 1) <= bytes
    && (pages <= 1 || (pages - 1) * pageSize < 2 * bytes)
  }

  lemma DenseBoundsPages(h: Heap)
    requires Dense(h)
    ensures WellFilled(|h.pages|, h.pageSize, Carved(h.slots))
  {
    BaseIsProduct(h.pageSize + 1, |h.pages| / 2);
    PairsFillPages(|h.pages| / 2, |h.pages| % 2, h.pageSize);
  }

  lemma PairsFillPages(pairs: nat, odd: nat, width: nat)
    requires odd < 2
    ensures pairs > 0 ==> (2 * pairs + odd - 1) * width < 2 * (pairs * (width + 1))
  {
    Widen(pairs, width);
    if odd == 0 {
      assert (2 * pairs - 1) * width == 2 * (pairs * width) - width;
    } else {
      assert (2 * pairs) * width == 2 * (pairs * width);
    }
  }

  /**
   * Next-fit never wastes more than half: after any run, with any sizes and alignments, the pages
   * before the newest one take up less than twice the bytes carved. Exactly, each two pages cost at
   * least a byte more than one page holds.
   */
  lemma PagesBoundedByCarvedBytes(pageSize: nat, rs: seq<Request>)
    requires PowerOfTwo(pageSize) && LegalRun(EmptyHeap(pageSize), rs)
    ensures var h := Run(EmptyHeap(pageSize), rs);
      h.pageSize == pageSize && WellFilled(|h.pages|, pageSize, Carved(h.slots))
  {
    var start := EmptyHeap(pageSize);
    RunKeepsInv(start, rs);
    RunKeepsDense(start, rs);
    DenseBoundsPages(Run(start, rs));
  }

  ghost predicate NoEmptySlots(h: Heap) {
    forall i :: 0 <= i < |h.slots| ==> h.slots[i].layout.size > 0
  }

  /** The bytes asked for pay twice over for all pages but the newest, and for what is filled of that. */
  ghost predicate Repaid(h: Heap) {
    if h.pages == [] then h.freePtr == 0
    else Base(h.pageSize + 1, |h.pages| - 1) + h.freePtr <= 2 * Requested(h.slots)
  }

  lemma RequestedAppend(slots: seq<Slot>, s: Slot)
    ensures Requested(slots + [s]) == Requested(slots) + s.layout.size
  {
    assert (slots + [s])[..|slots|] == slots;
  }

  /** Padding is below the alignment, and so below the size of a resource that has one. */
  lemma PaddingBelowSize(h: Heap, s: Slot)
    requires SlotOk(h, s) && s.layout.size > 0
    ensures s.pad < s.layout.size
  {
    MultiplesApart(0, s.layout.size, s.layout.align);
  }

  lemma GrowthKeepsRepaid(h: Heap, h': Heap, l: Layout, slots: seq<Slot>)
    requires Repaid(h) && Grows(h, h', l, slots)
    requires slots != [] ==> slots[0].pad <= slots[0].layout.size
    ensures Repaid(h')
  {
    if slots != [] {
      assert slots == [slots[0]];
      RequestedAppend(h.slots, slots[0]);
    }
  }

  lemma ConstructKeepsRepaid(h: Heap, r: Request)
    requires Inv(h) && Repaid(h) && LegalRequest(h, r) && NoEmptySlots(Construct(h, r).0)
    ensures Repaid(Construct(h, r).0) && NoEmptySlots(h)
  {
    var h' := Construct(h, r).0;
    var slots := ConstructDelta(h, r);
    ConstructKeepsInv(h, r);
    if slots != [] {
      assert h'.slots[|h.slots|] == slots[0] && SlotOk(h', slots[0]);
      PaddingBelowSize(h', slots[0]);
    }
    GrowthKeepsRepaid(h, h', r.layout, slots);
    assert forall i :: 0 <= i < |h.slots| ==> h.slots[i] == h'.slots[i];
  }

  /** Slots are never taken back, so a run without an empty slot in the end never had one. */
  lemma {:induction false} RunKeepsSlots(h: Heap, rs: seq<Request>)
    requires Inv(h) && LegalRun(h, rs)
    ensures h.slots <= Run(h, rs).slots
    decreases |rs|
  {
    if rs != [] {
      ConstructKeepsInv(h, rs[0]);
      var slots := ConstructDelta(h, rs[0]);
      RunKeepsSlots(Construct(h, rs[0]).0, rs[1..]);
    }
  }

  lemma PrefixHasNoEmptySlots(h: Heap, h': Heap)
    requires h.slots <= h'.slots && NoEmptySlots(h')
    ensures NoEmptySlots(h)
  {
    assert forall i :: 0 <= i < |h.slots| ==> h.slots[i] == h'.slots[i];
  }

  lemma {:induction false} RunKeepsRepaid(h: Heap, rs: seq<Request>)
    requires Inv(h) && Repaid(h) && LegalRun(h, rs) && NoEmptySlots(Run(h, rs))
    ensures Repaid(Run(h, rs))
    decreases |rs|
  {
    if rs != [] {
      var next := Construct(h, rs[0]).0;
      ConstructKeepsInv(h, rs[0]);
      RunKeepsSlots(next, rs[1..]);
      PrefixHasNoEmptySlots(next, Run(next, rs[1..]));
      ConstructKeepsRepaid(h, rs[0]);
      RunKeepsRepaid(next, rs[1..]);
    }
  }

  /** The bound against the bytes asked for, when the newest page is filled up to here. */
  ghost predicate WellUsed(pages: nat, pageSize: nat, filled: nat, bytes: nat) {
    pages > 0 ==> (pages - 1) * (pageSize + 1) + filled <= 2 * bytes
  }

  /** With no zero-sized resource, padding is paid for, too: the bound holds against the bytes asked for. */
  lemma PagesBoundedByRequestedBytes(pageSize: nat, rs: seq<Request>)
    requires PowerOfTwo(pageSize) && LegalRun(EmptyHeap(pageSize), rs) && NoEmptySlots(Run(EmptyHeap(pageSize), rs))
    ensures var h := Run(EmptyHeap(pageSize), rs);
      h.pageSize == pageSize && WellUsed(|h.pages|, pageSize, h.freePtr, Requested(h.slots))
  {
    var start := EmptyHeap(pageSize);
    RunKeepsInv(start, rs);
    RunKeepsRepaid(start, rs);
    if Run(start, rs).pages != [] {
      BaseIsProduct(pageSize + 1, |Run(start, rs).pages| - 1);
    }
  }

  // ----- the bound is reached, for every number of pairs of pages -----

  function Opener(pageSize: nat, p: nat, size: nat): Request {
    var mapping := Mapped(Page(p, Base(pageSize, p)));
    Request("", Layout(0, size, 1), mapping, mapping, Some(0))
  }

  /** `m` rounds of a resource as large as a page followed by a one-byte resource. */
  function Rounds(pageSize: nat, p: nat, m: nat): seq<Request>
    decreases m
  {
    if m == 0 then []
    else [Opener(pageSize, p, pageSize), Opener(pageSize, p + 1, 1)] + Rounds(pageSize, p + 2, m - 1)
  }

  ghost predicate Stacked(h: Heap, p: nat) {
    && |h.pages| == p
    && (forall i :: 0 <= i < p ==> h.pages[i] == Page(i, Base(h.pageSize, i)))
    && h.resources == map[]
  }

  lemma {:induction false} BaseAligned(pageSize: nat, p: nat)
    requires pageSize > 0
    ensures Base(pageSize, p) % pageSize == 0
  {
    if p > 0 {
      BaseAligned(pageSize, p - 1);
      SumOfMultiples(Base(pageSize, p - 1), pageSize, pageSize);
    }
  }

  lemma {:induction false} BaseApart(pageSize: nat, i: nat, p: nat)
    requires i < p
    ensures Base(pageSize, i) + pageSize <= Base(pageSize, p)
  {
    if i < p - 1 {
      BaseApart(pageSize, i, p - 1);
    }
  }

  lemma OpenerIsLegal(h: Heap, p: nat, size: nat)
    requires h.pageSize > 0 && Stacked(h, p)
    ensures LegalRequest(h, Opener(h.pageSize, p, size))
  {
    BaseAligned(h.pageSize, p);
    forall i | 0 <= i < p ensures Apart(h.pages[i], Page(p, Base(h.pageSize, p)), h.pageSize) {
      BaseApart(h.pageSize, i, p);
    }
  }

  /** The opener's mapping is used exactly once, for a page of its own. */
  lemma OpenerConstructs(h: Heap, p: nat, size: nat)
    requires h.pageSize > 0 && Stacked(h, p) && size <= h.pageSize
    requires p == 0 || h.freePtr + size > h.pageSize
    ensures var r := Opener(h.pageSize, p, size);
      Construct(h, r).0 == Carve(NewPage(h, r.onFull).value, 0, r).0
  {
    AlignUpLeast(h.freePtr, 1, h.freePtr);
    FreshPageFits(EmptyHeap(h.pageSize), Layout(0, size, 1));
  }

  lemma OpenerOpens(h: Heap, p: nat, size: nat)
    requires Inv(h) && Stacked(h, p) && size <= h.pageSize
    requires p == 0 || h.freePtr + size > h.pageSize
    ensures LegalRequest(h, Opener(h.pageSize, p, size))
    ensures var h' := Construct(h, Opener(h.pageSize, p, size)).0;
      && Inv(h') && Stacked(h', p + 1) && h'.freePtr == size && h'.pageSize == h.pageSize
      && Carved(h'.slots) == Carved(h.slots) + size
  {
    var r := Opener(h.pageSize, p, size);
    OpenerIsLegal(h, p, size);
    ConstructKeepsInv(h, r);
    OpenerConstructs(h, p, size);
    CarvedAppend(h.slots, Slot(p, 0, 0, r.layout, r.name, false));
  }

  /** The run is legal and ends with this many pages and this many bytes carved. */
  ghost predicate Reaches(h: Heap, rs: seq<Request>, pages: nat, bytes: nat) {
    && h.pageSize > 0 && LegalRun(h, rs)
    && |Run(h, rs).pages| == pages && Carved(Run(h, rs).slots) == bytes
  }

  lemma TwoMoreReach(h: Heap, r1: Request, r2: Request, rest: seq<Request>, pages: nat, bytes: nat)
    requires h.pageSize > 0 && LegalRequest(h, r1) && Construct(h, r1).0.pageSize > 0
    requires var h1 := Construct(h, r1).0; LegalRequest(h1, r2) && Reaches(Construct(h1, r2).0, rest, pages, bytes)
    ensures Reaches(h, [r1, r2] + rest, pages, bytes)
  {
    var rs := [r1, r2] + rest;
    assert rs[1..] == [r2] + rest && rs[1..][1..] == rest;
  }

  /** One round opens two pages for pageSize + 1 bytes and can be repeated. */
  lemma RoundOpensTwo(h: Heap, p: nat) returns (h1: Heap, h2: Heap)
    requires Inv(h) && Stacked(h, p) && (p == 0 || h.freePtr == 1)
    ensures h1 == Construct(h, Opener(h.pageSize, p, h.pageSize)).0 && h1.pageSize == h.pageSize
    ensures h2 == Construct(h1, Opener(h.pageSize, p + 1, 1)).0 && h2.pageSize == h.pageSize
    ensures LegalRequest(h, Opener(h.pageSize, p, h.pageSize)) && LegalRequest(h1, Opener(h.pageSize, p + 1, 1))
    ensures Inv(h2) && Stacked(h2, p + 2) && h2.freePtr == 1
    ensures Carved(h2.slots) == Carved(h.slots) + h.pageSize + 1
  {
    OpenerOpens(h, p, h.pageSize);
    h1 := Construct(h, Opener(h.pageSize, p, h.pageSize)).0;
    OpenerOpens(h1, p + 1, 1);
    h2 := Construct(h1, Opener(h.pageSize, p + 1, 1)).0;
  }

  /** Reaching the rest after a round is reaching the whole. */
  lemma RoundReaches(h: Heap, p: nat, m: nat, h1: Heap, h2: Heap, pages: nat, bytes: nat)
    requires h.pageSize > 0 && m > 0
    requires h1 == Construct(h, Opener(h.pageSize, p, h.pageSize)).0 && h1.pageSize == h.pageSize
    requires h2 == Construct(h1, Opener(h.pageSize, p + 1, 1)).0
    requires LegalRequest(h, Opener(h.pageSize, p, h.pageSize)) && LegalRequest(h1, Opener(h.pageSize, p + 1, 1))
    requires Reaches(h2, Rounds(h.pageSize, p + 2, m - 1), pages, bytes)
    ensures Reaches(h, Rounds(h.pageSize, p, m), pages, bytes)
  {
    TwoMoreReach(h, Opener(h.pageSize, p, h.pageSize), Opener(h.pageSize, p + 1, 1),
      Rounds(h.pageSize, p + 2, m - 1), pages, bytes);
  }

  lemma OneRound(pageSize: nat, h: Heap, p: nat, m: nat, pages: nat, bytes: nat) returns (h': Heap)
    requires Inv(h) && Stacked(h, p) && (p == 0 || h.freePtr == 1) && h.pageSize == pageSize && m > 0
    ensures Inv(h') && Stacked(h', p + 2) && h'.freePtr == 1 && h'.pageSize == pageSize
    ensures Carved(h'.slots) == Carved(h.slots) + pageSize + 1
    ensures Reaches(h', Rounds(pageSize, p + 2, m - 1), pages, bytes) ==> Reaches(h, Rounds(pageSize, p, m), pages, bytes)
  {
    var h1;
    h1, h' := RoundOpensTwo(h, p);
    if Reaches(h', Rounds(pageSize, p + 2, m - 1), pages, bytes) {
      RoundReaches(h, p, m, h1, h', pages, bytes);
    }
  }

  lemma NoRounds(h: Heap, p: nat)
    requires h.pageSize > 0 && |h.pages| == p
    ensures Reaches(h, Rounds(h.pageSize, p, 0), p, Carved(h.slots))
  {
  }

  lemma {:induction false} RoundsFillHalf(pageSize: nat, h: Heap, p: nat, m: nat)
    requires Inv(h) && Stacked(h, p) && (p == 0 || h.freePtr == 1) && h.pageSize == pageSize
    ensures Reaches(h, Rounds(pageSize, p, m), p + 2 * m, Carved(h.slots) + Base(pageSize + 1, m))
    decreases m
  {
    if m == 0 {
      NoRounds(h, p);
    } else {
      var bytes := Carved(h.slots) + Base(pageSize + 1, m);
      var h' := OneRound(pageSize, h, p, m, p + 2 * m, bytes);
      assert bytes == Carved(h'.slots) + Base(pageSize + 1, m - 1);
      RoundsFillHalf(pageSize, h', p + 2, m - 1);
    }
  }

  /** For every m there is a run that spends 2m pages on m * (pageSize + 1) bytes. */
  lemma BoundIsTight(pageSize: nat, m: nat)
    requires PowerOfTwo(pageSize)
    ensures Reaches(EmptyHeap(pageSize), Rounds(pageSize, 0, m), 2 * m, m * (pageSize + 1))
  {
    RoundsFillHalf(pageSize, EmptyHeap(pageSize), 0, m);
    BaseIsProduct(pageSize + 1, m);
  }
}
