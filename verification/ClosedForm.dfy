/** Where the n-th slot lies when all resources have the same layout. */
module ClosedForm {
  import opened Alignment
  import opened ShmHeap

  ghost predicate Uniform(l: Layout, pageSize: nat) {
    ValidLayout(l) && 0 < l.size <= pageSize && l.align <= pageSize && PowerOfTwo(pageSize)
  }

  /** The n-th slot of a uniform run: page n / k and offset (n mod k) * size, k slots to a page. */
  ghost predicate AtClosedForm(h: Heap, l: Layout, n: nat)
    requires 0 < l.size <= h.pageSize && n < |h.slots|
  {
    DivPositive(h.pageSize, l.size);
    var k := h.pageSize / l.size;
    h.slots[n].page == n / k && h.slots[n].offset == (n % k) * l.size
  }

  lemma DivPositive(x: nat, y: nat)
    requires 0 < y <= x
    ensures x / y > 0
  {
  }

  /** The bump state after n slots: the last one filled is slot n - 1. */
  ghost predicate AfterUniform(h: Heap, l: Layout)
    requires Uniform(l, h.pageSize)
  {
    DivPositive(h.pageSize, l.size);
    var k, n := h.pageSize / l.size, |h.slots|;
    && (forall i :: 0 <= i < n ==> AtClosedForm(h, l, i))
    && (n == 0 <==> h.pages == [])
    && (n > 0 ==> |h.pages| == (n - 1) / k + 1 && h.freePtr == ((n - 1) % k + 1) * l.size)
  }

  /** Stepping from slot n - 1 to slot n stays on the page exactly when the page has a place left. */
  lemma NextIndex(n: nat, k: nat)
    requires n > 0 && k > 0
    ensures (n - 1) % k + 1 < k ==> n / k == (n - 1) / k && n % k == (n - 1) % k + 1
    ensures (n - 1) % k + 1 == k ==> n / k == (n - 1) / k + 1 && n % k == 0
  {
    var q, m := (n - 1) / k, (n - 1) % k;
    assert n == q * k + (m + 1);
    if m + 1 < k {
      DivisionUnique(n, k, q, m + 1);
    } else {
      assert n == (q + 1) * k + 0;
      DivisionUnique(n, k, q + 1, 0);
    }
  }

  lemma FewerFit(m: nat, k: nat, size: nat)
    requires m < k
    ensures m * size + size <= k * size
  {
    assert k * size == (m + 1) * size + (k - m - 1) * size;
  }

  /** m slots fill a page of k slots up to m * size, and one more fits exactly when m < k. */
  lemma RoomForOneMore(pageSize: nat, size: nat, m: nat)
    requires 0 < size <= pageSize && m <= pageSize / size
    ensures m * size + size > pageSize <==> m == pageSize / size
  {
    var k, rest := pageSize / size, pageSize % size;
    assert pageSize == k * size + rest && 0 <= rest < size;
    if m < k {
      FewerFit(m, k, size);
    }
  }

  /** On a uniform page the free pointer is aligned already, so no padding is ever inserted. */
  lemma NoPadding(m: nat, l: Layout)
    requires ValidLayout(l) && l.size > 0
    ensures AlignUp(m * l.size, l.align) == m * l.size
  {
    MultipleModZero(m, l.size);
    MultipleOfMultiple(m * l.size, l.size, l.align);
  }

  /** The place of slot n follows from the bump state left by slot n - 1. */
  lemma NextPlace(h: Heap, l: Layout, h': Heap, slots: seq<Slot>)
    requires Uniform(l, h.pageSize) && AfterUniform(h, l) && Grows(h, h', l, slots) && slots != []
    requires slots[0].page < |h.pages| ==> slots[0].offset == AlignUp(h.freePtr, l.align)
    ensures var k, n := h.pageSize / l.size, |h.slots|;
      && k > 0
      && slots[0].page == n / k && slots[0].offset == (n % k) * l.size
      && |h'.pages| == n / k + 1 && h'.freePtr == (n % k + 1) * l.size
  {
    DivPositive(h.pageSize, l.size);
    var k, n := h.pageSize / l.size, |h.slots|;
    if n == 0 {
      DivisionUnique(0, k, 0, 0);
    } else {
      NextIndex(n, k);
      var m := (n - 1) % k + 1;
      RoomForOneMore(h.pageSize, l.size, m);
      NoPadding(m, l);
      assert (m + 1) * l.size == m * l.size + l.size;
    }
  }

  lemma GrowthKeepsUniform(h: Heap, l: Layout, h': Heap, slots: seq<Slot>)
    requires Uniform(l, h.pageSize) && AfterUniform(h, l) && Grows(h, h', l, slots)
    requires slots != [] && slots[0].page < |h.pages| ==> slots[0].offset == AlignUp(h.freePtr, l.align)
    ensures AfterUniform(h', l)
  {
    if slots != [] {
      NextPlace(h, l, h', slots);
      forall i | 0 <= i < |h'.slots| ensures AtClosedForm(h', l, i) {
        assert i < |h.slots| ==> AtClosedForm(h, l, i);
      }
    }
  }

  lemma ConstructKeepsUniform(h: Heap, l: Layout, r: Request)
    requires Inv(h) && LegalRequest(h, r) && r.layout == l && Uniform(l, h.pageSize) && AfterUniform(h, l)
    ensures Construct(h, r).0.pageSize == h.pageSize
    ensures AfterUniform(Construct(h, r).0, l)
  {
    var slots := ConstructDelta(h, r);
    GrowthKeepsUniform(h, l, Construct(h, r).0, slots);
  }

  lemma {:induction false} RunKeepsUniform(h: Heap, l: Layout, rs: seq<Request>)
    requires Inv(h) && LegalRun(h, rs) && Uniform(l, h.pageSize) && AfterUniform(h, l)
    requires forall i :: 0 <= i < |rs| ==> rs[i].layout == l
    ensures Run(h, rs).pageSize == h.pageSize && AfterUniform(Run(h, rs), l)
    decreases |rs|
  {
    if rs != [] {
      ConstructKeepsInv(h, rs[0]);
      ConstructKeepsUniform(h, l, rs[0]);
      RunKeepsUniform(Construct(h, rs[0]).0, l, rs[1..]);
    }
  }

  /**
   * Closed form: in any run over one layout of positive size, whichever constructors and page
   * creations fail on the way, the n-th slot carved is the n mod k-th of page n / k.
   */
  lemma NthSlot(pageSize: nat, l: Layout, rs: seq<Request>, n: nat)
    requires Uniform(l, pageSize) && LegalRun(EmptyHeap(pageSize), rs)
    requires forall i :: 0 <= i < |rs| ==> rs[i].layout == l
    requires n < |Run(EmptyHeap(pageSize), rs).slots|
    ensures Run(EmptyHeap(pageSize), rs).pageSize == pageSize
    ensures AtClosedForm(Run(EmptyHeap(pageSize), rs), l, n)
  {
    RunKeepsUniform(EmptyHeap(pageSize), l, rs);
  }
}
