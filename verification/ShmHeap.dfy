/**
 * The shared-memory heap of one environment as a value: pages, the bump pointer into the newest page,
 * the name table, and the history of every slot ever carved (also those whose constructor failed).
 */
module ShmHeap {
  import opened Outcomes
  import opened Alignment

  datatype Layout = Layout(typeId: nat, size: nat, align: nat)

  /** What the Rust Reference ("Type Layout", "Size and Alignment") guarantees of every type. */
  predicate ValidLayout(l: Layout) {
    PowerOfTwo(l.align) && l.size % l.align == 0
  }

  datatype Page = Page(fd: int, mem: nat)

  datatype Metadata = Metadata(typeId: nat, page: nat, offset: nat)

  datatype Location = Location(page: nat, offset: nat, fd: int)

  datatype AllocError =
    | NameInUse
    | TooLarge
    | AlignmentTooLarge
    | TypeMismatch
    | PageSizeUnknown
    | Os(code: int)
    | ConstructorFailed(code: int)
    | UnwrapOnNone  // the panic of `aligned_free_ptr.unwrap()`

  /** A slot carved from a page: `pad` bytes of padding in front, then the resource itself. */
  datatype Slot = Slot(page: nat, offset: nat, pad: nat, layout: Layout, name: string, live: bool)

  datatype Heap = Heap(
    pageSize: nat,
    pages: seq<Page>,
    freePtr: nat,
    resources: map<string, Metadata>,
    slots: seq<Slot>,            // history: all slots ever carved, in order
    home: map<string, nat>)      // history: the index of the slot each name was constructed in

  /** The kernel's answer to one memfd/ftruncate/seal/mmap sequence. */
  datatype Mapping = MapFailed(code: int) | Mapped(page: Page)

  /** One `construct_in_shm` call, with the outside world's answers to the steps it may take. */
  datatype Request = Request(name: string, layout: Layout, onEmpty: Mapping, onFull: Mapping, failure: Option<int>)

  function EmptyHeap(pageSize: nat): Heap {
    Heap(pageSize, [], 0, map[], [], map[])
  }

  function NewPage(h: Heap, m: Mapping): Result<Heap, AllocError> {
    match m
    case MapFailed(code) => Err(Os(code))
    case Mapped(page) => Ok(h.(pages := h.pages + [page], freePtr := 0))
  }

  function FirstPage(h: Heap, m: Mapping): Result<Heap, AllocError> {
    if h.pages == [] then NewPage(h, m) else Ok(h)
  }

  /** The lookup and, when it is refused, the new page and the second lookup with its `unwrap`. */
  function Reserve(h: Heap, l: Layout, m: Mapping): Result<(Heap, nat), AllocError>
    requires l.align > 0
  {
    match AlignedFreePointer(h.freePtr, l.size, l.align, h.pageSize)
    case Some(offset) => Ok((h, offset))
    case None =>
      match NewPage(h, m)
      case Err(e) => Err(e)
      case Ok(h') =>
        match AlignedFreePointer(h'.freePtr, l.size, l.align, h'.pageSize)
        case Some(offset) => Ok((h', offset))
        case None => Err(UnwrapOnNone)
  }

  /** Moves the free pointer, runs the constructor and, if it succeeded, records the name. */
  function Carve(h: Heap, offset: nat, r: Request): (Heap, Result<Location, AllocError>)
    requires h.pages != [] && h.freePtr <= offset
  {
    var page := |h.pages| - 1;
    var slot := Slot(page, offset, offset - h.freePtr, r.layout, r.name, r.failure.None?);
    var carved := h.(freePtr := offset + r.layout.size, slots := h.slots + [slot]);
    match r.failure
    case Some(code) => (carved, Err(ConstructorFailed(code)))
    case None =>
      (carved.(resources := h.resources[r.name := Metadata(r.layout.typeId, page, offset)],
               home := h.home[r.name := |h.slots|]),
       Ok(Location(page, offset, h.pages[page].fd)))
  }

  /** `construct_in_shm`. */
  function Construct(h: Heap, r: Request): (Heap, Result<Location, AllocError>)
    requires r.layout.align > 0
  {
    if r.name in h.resources then (h, Err(NameInUse))
    else if r.layout.size > h.pageSize then (h, Err(TooLarge))
    else if r.layout.align > h.pageSize then (h, Err(AlignmentTooLarge))
    else
      match FirstPage(h, r.onEmpty)
      case Err(e) => (h, Err(e))
      case Ok(h1) =>
        match Reserve(h1, r.layout, r.onFull)
        case Err(e) => (h1, Err(e))
        case Ok((h2, offset)) => Carve(h2, offset, r)
  }

  /** `find_resource`, called for the type `typeId`. */
  function Find(h: Heap, name: string, typeId: nat): Result<Option<Location>, AllocError>
    requires name in h.resources ==> h.resources[name].page < |h.pages|
  {
    if name !in h.resources then Ok(None)
    else
      var meta := h.resources[name];
      if meta.typeId != typeId then Err(TypeMismatch)
      else Ok(Some(Location(meta.page, meta.offset, h.pages[meta.page].fd)))
  }

  // ----- what the kernel promises about a mapping -----

  ghost predicate Apart(p: Page, q: Page, pageSize: nat) {
    && p.fd != q.fd
    && (p.mem + pageSize <= q.mem || q.mem + pageSize <= p.mem)
  }

  ghost predicate KernelOk(h: Heap, m: Mapping)
    requires h.pageSize > 0
  {
    m.Mapped? ==>
      && m.page.mem % h.pageSize == 0
      && forall i :: 0 <= i < |h.pages| ==> Apart(h.pages[i], m.page, h.pageSize)
  }

  ghost predicate LegalRequest(h: Heap, r: Request)
    requires h.pageSize > 0
  {
    ValidLayout(r.layout) && KernelOk(h, r.onEmpty) && KernelOk(h, r.onFull)
  }

  // ----- the invariant of every reachable heap -----

  ghost predicate PagesOk(h: Heap)
    requires h.pageSize > 0
  {
    && (forall i :: 0 <= i < |h.pages| ==> h.pages[i].mem % h.pageSize == 0)
    && (forall i, j :: 0 <= i < j < |h.pages| ==> Apart(h.pages[i], h.pages[j], h.pageSize))
  }

  ghost predicate SlotOk(h: Heap, s: Slot) {
    && ValidLayout(s.layout)
    && s.layout.align <= h.pageSize
    && s.page < |h.pages|
    && s.pad < s.layout.align && s.pad <= s.offset
    && s.offset % s.layout.align == 0
    && s.offset + s.layout.size <= (if s.page == |h.pages| - 1 then h.freePtr else h.pageSize)
  }

  ghost predicate Before(s: Slot, t: Slot) {
    s.page < t.page || (s.page == t.page && s.offset + s.layout.size <= t.offset - t.pad)
  }

  ghost predicate TableOk(h: Heap) {
    && h.home.Keys == h.resources.Keys
    && (forall n :: n in h.home ==>
          && h.home[n] < |h.slots|
          && var s := h.slots[h.home[n]];
          s.live && s.name == n && h.resources[n] == Metadata(s.layout.typeId, s.page, s.offset))
    && (forall i :: 0 <= i < |h.slots| && h.slots[i].live ==>
          h.slots[i].name in h.home && h.home[h.slots[i].name] == i)
  }

  ghost predicate Inv(h: Heap) {
    && PowerOfTwo(h.pageSize)
    && h.freePtr <= h.pageSize
    && (h.pages == [] ==> h.freePtr == 0)
    && PagesOk(h)
    && (forall i :: 0 <= i < |h.slots| ==> SlotOk(h, h.slots[i]))
    && (forall i, j :: 0 <= i < j < |h.slots| ==> Before(h.slots[i], h.slots[j]))
    && TableOk(h)
  }

  lemma NewPageKeepsInv(h: Heap, m: Mapping)
    requires Inv(h) && KernelOk(h, m) && m.Mapped?
    ensures Inv(NewPage(h, m).value)
  {
    var h' := NewPage(h, m).value;
    forall i | 0 <= i < |h'.slots| ensures SlotOk(h', h'.slots[i]) {
      assert SlotOk(h, h.slots[i]);
    }
  }

  /** A fresh page always has room: the lookup after `create_new_page` succeeds at offset 0. */
  lemma FreshPageFits(h: Heap, l: Layout)
    requires h.freePtr == 0 && l.align > 0 && l.size <= h.pageSize
    ensures AlignedFreePointer(h.freePtr, l.size, l.align, h.pageSize) == Some(0)
  {
    AlignUpLeast(0, l.align, 0);
  }

  ghost predicate CanCarve(h: Heap, offset: nat, r: Request) {
    && Inv(h) && h.pages != [] && ValidLayout(r.layout) && r.layout.align <= h.pageSize
    && r.name !in h.resources
    && AlignedFreePointer(h.freePtr, r.layout.size, r.layout.align, h.pageSize) == Some(offset)
  }

  lemma CarveKeepsSlots(h: Heap, offset: nat, r: Request)
    requires CanCarve(h, offset, r)
    ensures var h' := Carve(h, offset, r).0; forall i :: 0 <= i < |h'.slots| ==> SlotOk(h', h'.slots[i])
  {
    var h' := Carve(h, offset, r).0;
    forall i | 0 <= i < |h'.slots| ensures SlotOk(h', h'.slots[i]) {
      if i < |h.slots| {
        assert SlotOk(h, h.slots[i]);
      }
    }
  }

  lemma CarveKeepsOrder(h: Heap, offset: nat, r: Request)
    requires CanCarve(h, offset, r)
    ensures var h' := Carve(h, offset, r).0;
      forall i, j :: 0 <= i < j < |h'.slots| ==> Before(h'.slots[i], h'.slots[j])
  {
    var h' := Carve(h, offset, r).0;
    forall i, j | 0 <= i < j < |h'.slots| ensures Before(h'.slots[i], h'.slots[j]) {
      assert SlotOk(h, h.slots[i]);
      assert j < |h.slots| ==> Before(h.slots[i], h.slots[j]);
    }
  }

  /** A slot without a resource adds nothing to the table. */
  lemma DeadSlotKeepsTable(h: Heap, h': Heap, slot: Slot)
    requires TableOk(h) && !slot.live
    requires h'.slots == h.slots + [slot] && h'.resources == h.resources && h'.home == h.home
    ensures TableOk(h')
  {
  }

  lemma LiveSlotKeepsTable(h: Heap, h': Heap, slot: Slot)
    requires TableOk(h) && slot.live && slot.name !in h.resources
    requires h'.slots == h.slots + [slot] && h'.home == h.home[slot.name := |h.slots|]
    requires h'.resources == h.resources[slot.name := Metadata(slot.layout.typeId, slot.page, slot.offset)]
    ensures TableOk(h')
  {
  }

  lemma CarveKeepsTable(h: Heap, offset: nat, r: Request)
    requires CanCarve(h, offset, r)
    ensures TableOk(Carve(h, offset, r).0)
  {
    var h' := Carve(h, offset, r).0;
    var slot := h'.slots[|h.slots|];
    if r.failure.Some? {
      DeadSlotKeepsTable(h, h', slot);
    } else {
      LiveSlotKeepsTable(h, h', slot);
    }
  }

  lemma CarveKeepsInv(h: Heap, offset: nat, r: Request)
    requires CanCarve(h, offset, r)
    ensures Inv(Carve(h, offset, r).0)
  {
    CarveKeepsSlots(h, offset, r);
    CarveKeepsOrder(h, offset, r);
    CarveKeepsTable(h, offset, r);
    assert PagesOk(h);
  }

  /** The heap a request's slot is carved from, when it is carved at all. */
  ghost predicate CarvedFrom(h: Heap, r: Request, h2: Heap, offset: nat)
    requires r.layout.align > 0
  {
    && h2.pages != []
    && AlignedFreePointer(h2.freePtr, r.layout.size, r.layout.align, h2.pageSize) == Some(offset)
    && (|| h2 == h
        || (h.pages == [] && NewPage(h, r.onEmpty) == Ok(h2) && offset == 0)
        || (h.pages != [] && h.freePtr + r.layout.size > h.pageSize && NewPage(h, r.onFull) == Ok(h2) && offset == 0))
  }

  /**
   * What one `construct_in_shm` call can do: refuse and leave the whole heap untouched, or carve
   * exactly one slot, after at most one new page, which is created only when the heap has none or
   * when the bytes behind the free pointer are too few. The `unwrap` never fails.
   */
  lemma ConstructCases(h: Heap, r: Request) returns (carved: bool, h2: Heap, offset: nat)
    requires Inv(h) && LegalRequest(h, r)
    ensures Construct(h, r).1 != Err(UnwrapOnNone)
    ensures !carved ==> Construct(h, r).0 == h && Construct(h, r).1.Err? && !Construct(h, r).1.error.ConstructorFailed?
    ensures carved ==> CarvedFrom(h, r, h2, offset) && Inv(h2) && Construct(h, r) == Carve(h2, offset, r)
    ensures carved ==> r.name !in h.resources && r.layout.size <= h.pageSize && r.layout.align <= h.pageSize
  {
    carved, h2, offset := false, h, 0;
    if r.name in h.resources || r.layout.size > h.pageSize || r.layout.align > h.pageSize {
      return;
    }
    RefusedOnlyWhenFull(h.freePtr, r.layout.size, r.layout.align, h.pageSize);
    FreshPageFits(EmptyHeap(h.pageSize), r.layout);
    if h.pages == [] {
      if r.onEmpty.Mapped? {
        NewPageKeepsInv(h, r.onEmpty);
        carved, h2 := true, NewPage(h, r.onEmpty).value;
      }
    } else if h.freePtr + r.layout.size <= h.pageSize {
      carved, offset := true, AlignUp(h.freePtr, r.layout.align);
    } else if r.onFull.Mapped? {
      NewPageKeepsInv(h, r.onFull);
      carved, h2 := true, NewPage(h, r.onFull).value;
    }
  }

  lemma ConstructKeepsInv(h: Heap, r: Request)
    requires Inv(h) && LegalRequest(h, r)
    ensures Inv(Construct(h, r).0)
    ensures Construct(h, r).0.pageSize == h.pageSize
  {
    var carved, h2, offset := ConstructCases(h, r);
    if carved {
      CarveKeepsInv(h2, offset, r);
    }
  }

  /** The slot follows the free pointer on the newest page. */
  ghost predicate OnNewestPage(h: Heap, h': Heap, slot: Slot) {
    && h.pages != [] && h'.pages == h.pages
    && slot.page == |h.pages| - 1
    && slot.offset == h.freePtr + slot.pad
    && h.freePtr + slot.layout.size <= h.pageSize
    && h'.freePtr == slot.offset + slot.layout.size
  }

  /** The slot opens a page, because there was none or the newest one had too few bytes left. */
  ghost predicate OnFreshPage(h: Heap, h': Heap, slot: Slot) {
    && (h.pages == [] || h.freePtr + slot.layout.size > h.pageSize)
    && |h'.pages| == |h.pages| + 1 && h.pages <= h'.pages
    && slot.page == |h.pages|
    && slot.offset == slot.pad == 0
    && h'.freePtr == slot.layout.size
  }

  /** The heap has grown by these slots, none or one, of this layout. */
  ghost predicate Grows(h: Heap, h': Heap, l: Layout, slots: seq<Slot>) {
    && |slots| <= 1
    && h'.pageSize == h.pageSize
    && h'.slots == h.slots + slots
    && (slots == [] ==> h' == h)
    && (slots != [] ==> slots[0].layout == l && (OnNewestPage(h, h', slots[0]) || OnFreshPage(h, h', slots[0])))
  }

  /** One `construct_in_shm` call seen from outside: nothing, or one more slot in one of two places. */
  lemma ConstructDelta(h: Heap, r: Request) returns (slots: seq<Slot>)
    requires Inv(h) && LegalRequest(h, r)
    ensures Grows(h, Construct(h, r).0, r.layout, slots)
    ensures slots != [] && slots[0].page < |h.pages| ==> slots[0].offset == AlignUp(h.freePtr, r.layout.align)
  {
    var carved, h2, offset := ConstructCases(h, r);
    if !carved {
      return [];
    }
    var h' := Construct(h, r).0;
    slots := [h'.slots[|h.slots|]];
    if h2 == h {
      RefusedOnlyWhenFull(h.freePtr, r.layout.size, r.layout.align, h.pageSize);
    }
  }

  // ----- runs -----

  /** Every request of the run is legal in the heap it meets. */
  ghost predicate LegalRun(h: Heap, rs: seq<Request>)
    requires h.pageSize > 0
    decreases |rs|
  {
    rs == [] ||
    (&& LegalRequest(h, rs[0])
     && Construct(h, rs[0]).0.pageSize > 0
     && LegalRun(Construct(h, rs[0]).0, rs[1..]))
  }

  ghost function Run(h: Heap, rs: seq<Request>): Heap
    requires h.pageSize > 0 && LegalRun(h, rs)
    decreases |rs|
  {
    if rs == [] then h else Run(Construct(h, rs[0]).0, rs[1..])
  }

  lemma {:induction false} RunKeepsInv(h: Heap, rs: seq<Request>)
    requires Inv(h) && LegalRun(h, rs)
    ensures Inv(Run(h, rs)) && Run(h, rs).pageSize == h.pageSize
    decreases |rs|
  {
    if rs != [] {
      ConstructKeepsInv(h, rs[0]);
      RunKeepsInv(Construct(h, rs[0]).0, rs[1..]);
    }
  }

  ghost function Address(h: Heap, s: Slot): nat
    requires s.page < |h.pages|
  {
    h.pages[s.page].mem + s.offset
  }

  /** The slot lies in its page's mapping and its absolute address is a multiple of its alignment. */
  ghost predicate WellPlaced(h: Heap, s: Slot) {
    && s.page < |h.pages|
    && s.layout.align > 0
    && h.pages[s.page].mem <= Address(h, s)
    && Address(h, s) + s.layout.size <= h.pages[s.page].mem + h.pageSize
    && Address(h, s) % s.layout.align == 0
  }

  ghost predicate DisjointSlots(h: Heap, s: Slot, t: Slot)
    requires s.page < |h.pages| && t.page < |h.pages|
  {
    Address(h, s) + s.layout.size <= Address(h, t) || Address(h, t) + t.layout.size <= Address(h, s)
  }

  lemma SlotIsWellPlaced(h: Heap, s: Slot)
    requires Inv(h) && SlotOk(h, s)
    ensures WellPlaced(h, s)
  {
    SmallerPowerDivides(s.layout.align, h.pageSize);
    MultipleOfMultiple(h.pages[s.page].mem, h.pageSize, s.layout.align);
    SumOfMultiples(h.pages[s.page].mem, s.offset, s.layout.align);
  }

  lemma SlotsAreDisjoint(h: Heap, i: nat, j: nat)
    requires Inv(h) && i < j < |h.slots|
    ensures SlotOk(h, h.slots[i]) && SlotOk(h, h.slots[j])
    ensures DisjointSlots(h, h.slots[i], h.slots[j])
  {
    var s, t := h.slots[i], h.slots[j];
    assert SlotOk(h, s) && SlotOk(h, t) && Before(s, t);
    if s.page < t.page {
      assert Apart(h.pages[s.page], h.pages[t.page], h.pageSize);
    }
  }

  /**
   * In every heap reachable by any run of requests, every slot ever carved, also one whose
   * constructor failed, is well placed and shares no byte with any other.
   */
  lemma EverySlotIsSafe(pageSize: nat, rs: seq<Request>)
    requires PowerOfTwo(pageSize) && LegalRun(EmptyHeap(pageSize), rs)
    ensures var h := Run(EmptyHeap(pageSize), rs);
      && (forall i :: 0 <= i < |h.slots| ==> WellPlaced(h, h.slots[i]))
      && (forall i, j :: 0 <= i < j < |h.slots| ==> DisjointSlots(h, h.slots[i], h.slots[j]))
  {
    RunKeepsInv(EmptyHeap(pageSize), rs);
    var h := Run(EmptyHeap(pageSize), rs);
    forall i | 0 <= i < |h.slots| ensures WellPlaced(h, h.slots[i]) {
      SlotIsWellPlaced(h, h.slots[i]);
    }
    forall i, j | 0 <= i < j < |h.slots| ensures DisjointSlots(h, h.slots[i], h.slots[j]) {
      SlotsAreDisjoint(h, i, j);
    }
  }

  // ----- failure -----

  /**
   * A refused check or a failed page creation leaves the whole heap as it was; a failed constructor
   * costs its slot but leaves the name table, the pages and all earlier slots as they were; and a
   * success adds exactly its own name, bound to the slot it reports.
   */
  lemma FailureIsAtomic(h: Heap, r: Request)
    requires Inv(h) && LegalRequest(h, r)
    ensures var (h', res) := Construct(h, r);
      && res != Err(UnwrapOnNone)
      && h.pages <= h'.pages && |h'.pages| <= |h.pages| + 1
      && (res.Err? && !res.error.ConstructorFailed? ==> h' == h)
      && (res.Err? && res.error.ConstructorFailed? ==>
            && h'.resources == h.resources && h'.home == h.home
            && |h'.slots| == |h.slots| + 1 && h.slots <= h'.slots)
      && (res.Ok? ==>
            && r.name !in h.resources
            && |h'.slots| == |h.slots| + 1 && h.slots <= h'.slots
            && h'.resources == h.resources[r.name := Metadata(r.layout.typeId, res.value.page, res.value.offset)]
            && h'.home == h.home[r.name := |h.slots|]
            && res.value.page < |h'.pages| && res.value.fd == h'.pages[res.value.page].fd)
  {
    var carved, h2, offset := ConstructCases(h, r);
  }

  /** Whether a resource of this layout opens a page, and what the kernel says to that. */
  predicate OpensPage(h: Heap, l: Layout) {
    h.pages == [] || h.freePtr + l.size > h.pageSize
  }

  function Answer(h: Heap, r: Request): Mapping {
    if h.pages == [] then r.onEmpty else r.onFull
  }

  /**
   * Exactly when each error is returned, in terms of the unaligned free pointer. The alignment error
   * is reserved for zero-sized resources: any other one with such an alignment is too large already.
   */
  lemma ErrorsExactly(h: Heap, r: Request)
    requires Inv(h) && LegalRequest(h, r)
    ensures var res, fits := Construct(h, r).1, r.name !in h.resources && r.layout.size <= h.pageSize && r.layout.align <= h.pageSize;
      && (res == Err(NameInUse) <==> r.name in h.resources)
      && (res == Err(TooLarge) <==> r.name !in h.resources && r.layout.size > h.pageSize)
      && (res == Err(AlignmentTooLarge) <==> r.name !in h.resources && r.layout.size == 0 && r.layout.align > h.pageSize)
      && (res.Err? && res.error.Os? <==> fits && OpensPage(h, r.layout) && Answer(h, r).MapFailed?)
      && (res.Err? && res.error.ConstructorFailed? <==>
            fits && (OpensPage(h, r.layout) ==> Answer(h, r).Mapped?) && r.failure.Some?)
  {
    var carved, h2, offset := ConstructCases(h, r);
    if r.layout.align > h.pageSize && 0 < r.layout.size {
      MultiplesApart(0, r.layout.size, r.layout.align);
    }
    if r.layout.align <= h.pageSize && r.layout.size <= h.pageSize {
      RefusedOnlyWhenFull(h.freePtr, r.layout.size, r.layout.align, h.pageSize);
    }
  }

  // ----- what is recorded and found -----

  /**
   * A new page is the one the kernel has mapped for it, with its descriptor and its address, and the
   * older pages stay; an error of the kernel or of the constructor is passed on as it was.
   */
  lemma KernelAnswersAreKept(h: Heap, r: Request)
    requires Inv(h) && LegalRequest(h, r)
    ensures var (h', res) := Construct(h, r);
      && h'.pages[..|h.pages|] == h.pages
      && (|h'.pages| > |h.pages| ==> |h'.pages| == |h.pages| + 1 && Answer(h, r) == Mapped(h'.pages[|h.pages|]))
      && (res.Err? && res.error.Os? ==> Answer(h, r) == MapFailed(res.error.code))
      && (res.Err? && res.error.ConstructorFailed? ==> r.failure == Some(res.error.code))
  {
    var carved, h2, offset := ConstructCases(h, r);
    if r.layout.align <= h.pageSize && r.layout.size <= h.pageSize {
      RefusedOnlyWhenFull(h.freePtr, r.layout.size, r.layout.align, h.pageSize);
    }
  }

  /** The slot holds a resource of this name. */
  ghost predicate Holds(h: Heap, i: nat, name: string) {
    i < |h.slots| && h.slots[i].live && h.slots[i].name == name
  }

  /**
   * A lookup in a heap finds nothing exactly if no slot holds a resource of that name, a mismatch
   * exactly if one of another type does, and otherwise the place of the one that does.
   */
  lemma FindsWhatIsHeld(h: Heap, name: string, typeId: nat)
    requires Inv(h)
    ensures name in h.resources ==> h.resources[name].page < |h.pages|
    ensures Find(h, name, typeId) == Ok(None) <==> forall i: nat :: !Holds(h, i, name)
    ensures Find(h, name, typeId) == Err(TypeMismatch) <==>
              exists i: nat :: Holds(h, i, name) && h.slots[i].layout.typeId != typeId
    ensures forall i: nat :: Holds(h, i, name) && h.slots[i].layout.typeId == typeId ==>
              && h.slots[i].page < |h.pages|
              && Find(h, name, typeId) ==
                 Ok(Some(Location(h.slots[i].page, h.slots[i].offset, h.pages[h.slots[i].page].fd)))
  {
    if name in h.resources {
      assert SlotOk(h, h.slots[h.home[name]]) && Holds(h, h.home[name], name);
    }
    assert forall i: nat :: Holds(h, i, name) ==> name in h.home && h.home[name] == i;
  }

  /** What has been constructed is found, at the place reported, by its name and type and by no other type. */
  lemma ConstructedIsFound(h: Heap, r: Request, typeId: nat)
    requires Inv(h) && LegalRequest(h, r) && Construct(h, r).1.Ok?
    ensures var h' := Construct(h, r).0;
      && r.name in h'.resources && h'.resources[r.name].page < |h'.pages|
      && Find(h', r.name, typeId) ==
         if typeId == r.layout.typeId then Ok(Some(Construct(h, r).1.value)) else Err(TypeMismatch)
  {
    FailureIsAtomic(h, r);
  }
}
