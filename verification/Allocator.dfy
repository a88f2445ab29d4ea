/** `ShmAllocator`: the object that owns an environment's shared memory, proved against the heap value. */
module Allocator {
  import opened Outcomes
  import opened Alignment
  import opened ShmHeap
  import opened Destruction

  class ShmAllocator {
    var resources: map<string, Metadata>
    const pageSize: nat
    var pages: seq<Page>
    var freePtr: nat
    ghost var slots: seq<Slot>
    ghost var home: map<string, nat>

    ghost function View(): Heap
      reads this
    {
      Heap(pageSize, pages, freePtr, resources, slots, home)
    }

    ghost predicate Valid()
      reads this
    {
      Inv(View())
    }

    constructor (pageSize: nat)
      requires PowerOfTwo(pageSize)
      ensures Valid() && View() == EmptyHeap(pageSize)
    {
      this.resources := map[];
      this.pageSize := pageSize;
      this.pages := [];
      this.freePtr := 0;
      this.slots := [];
      this.home := map[];
    }

    /** `ShmAllocator::new`: fails exactly when the page size is zero, unknown or cannot be queried. */
    static method New(sysconf: Result<Option<nat>, int>) returns (r: Result<ShmAllocator, AllocError>)
      requires sysconf.Ok? && sysconf.value.Some? && sysconf.value.value > 0 ==> PowerOfTwo(sysconf.value.value)
      ensures r.Ok? <==> sysconf.Ok? && sysconf.value.Some? && sysconf.value.value > 0
      ensures r.Ok? ==> fresh(r.value) && r.value.Valid() && r.value.View() == EmptyHeap(sysconf.value.value)
      ensures r.Err? ==> r.error == (if sysconf.Err? then Os(sysconf.error) else PageSizeUnknown)
    {
      match sysconf {
        case Err(code) => return Err(Os(code));
        case Ok(None) => return Err(PageSizeUnknown);
        case Ok(Some(size)) =>
          if size == 0 {
            return Err(PageSizeUnknown);
          }
          var shm := new ShmAllocator(size);
          return Ok(shm);
      }
    }

    /** `create_new_page`. */
    method CreateNewPage(m: Mapping) returns (r: Result<(), AllocError>)
      modifies this`pages, this`freePtr
      ensures r.Ok? ==> NewPage(old(View()), m) == Ok(View())
      ensures r.Err? ==> NewPage(old(View()), m) == Err(r.error) && View() == old(View())
    {
      match m {
        case MapFailed(code) => return Err(Os(code));
        case Mapped(page) =>
          freePtr := 0;
          pages := pages + [page];
          return Ok(());
      }
    }

    /** The lookup on the newest page and, if it is refused, on a new one; the `unwrap` cannot fail. */
    method ReserveSlot(layout: Layout, onFull: Mapping) returns (r: Result<nat, AllocError>)
      requires layout.align > 0 && layout.size <= pageSize
      modifies this`pages, this`freePtr
      ensures r.Ok? ==> Reserve(old(View()), layout, onFull) == Ok((View(), r.value))
      ensures r.Err? ==> Reserve(old(View()), layout, onFull) == Err(r.error) && View() == old(View())
    {
      var aligned := AlignedFreePointer(freePtr, layout.size, layout.align, pageSize);
      if aligned.None? {
        var created := CreateNewPage(onFull);
        if created.Err? {
          return Err(created.error);
        }
        aligned := AlignedFreePointer(freePtr, layout.size, layout.align, pageSize);
        FreshPageFits(View(), layout);
      }
      return Ok(aligned.value);
    }

    /** Moves the free pointer, runs the constructor and records the name if it succeeded. */
    method Place(offset: nat, name: string, layout: Layout, failure: Option<int>, ghost request: Request)
      returns (r: Result<Location, AllocError>)
      requires pages != [] && freePtr <= offset
      requires request.name == name && request.layout == layout && request.failure == failure
      modifies this
      ensures (View(), r) == Carve(old(View()), offset, request)
    {
      slots := slots + [Slot(|pages| - 1, offset, offset - freePtr, layout, name, failure.None?)];
      freePtr := offset + layout.size;
      if failure.Some? {
        return Err(ConstructorFailed(failure.value));
      }
      resources := resources[name := Metadata(layout.typeId, |pages| - 1, offset)];
      home := home[name := |slots| - 1];
      return Ok(Location(|pages| - 1, offset, pages[|pages| - 1].fd));
    }

    /** `construct_in_shm`. */
    method ConstructInShm(name: string, layout: Layout, onEmpty: Mapping, onFull: Mapping, failure: Option<int>)
      returns (r: Result<Location, AllocError>)
      requires Valid() && LegalRequest(View(), Request(name, layout, onEmpty, onFull, failure))
      modifies this
      ensures Valid()
      ensures (View(), r) == Construct(old(View()), Request(name, layout, onEmpty, onFull, failure))
    {
      ConstructKeepsInv(View(), Request(name, layout, onEmpty, onFull, failure));
      r := CheckAndConstruct(name, layout, onEmpty, onFull, failure);
    }

    /** The checks, the first page, the slot and the constructor, in this order. */
    method CheckAndConstruct(name: string, layout: Layout, onEmpty: Mapping, onFull: Mapping, failure: Option<int>)
      returns (r: Result<Location, AllocError>)
      requires layout.align > 0
      modifies this
      ensures (View(), r) == Construct(old(View()), Request(name, layout, onEmpty, onFull, failure))
    {
      ghost var request := Request(name, layout, onEmpty, onFull, failure);
      if name in resources {
        return Err(NameInUse);
      }
      if layout.size > pageSize {
        return Err(TooLarge);
      }
      if layout.align > pageSize {
        return Err(AlignmentTooLarge);
      }
      if pages == [] {
        var created := CreateNewPage(onEmpty);
        if created.Err? {
          return Err(created.error);
        }
      }
      var reserved := ReserveSlot(layout, onFull);
      if reserved.Err? {
        return Err(reserved.error);
      }
      r := Place(reserved.value, name, layout, failure, request);
    }

    /** `find_resource`. */
    method FindResource(name: string, typeId: nat) returns (r: Result<Option<Location>, AllocError>)
      requires Valid()
      ensures name in resources ==> resources[name].page < |pages|
      ensures r == Find(View(), name, typeId)
    {
      if name !in resources {
        return Ok(None);
      }
      assert SlotOk(View(), slots[home[name]]);
      if resources[name].typeId != typeId {
        return Err(TypeMismatch);
      }
      return Ok(Some(Location(resources[name].page, resources[name].offset, pages[resources[name].page].fd)));
    }

    /** The payload of the panic at this place in the drain order, if there is one. */
    static ghost function PanicAt(order: seq<string>, k: nat): Option<string> {
      if k < |order| then Some(order[k]) else None
    }

    /** The unmapping half of `Drop`: one attempt per page, whatever its outcome. */
    method UnmapPages() returns (log: seq<Effect>)
      ensures log == UnmapAll(pages)
    {
      log := [];
      for i := 0 to |pages|
        invariant log == UnmapAll(pages)[..i]
      {
        log := log + [Unmapped(pages[i].mem)];
      }
    }

    /** The draining half of `Drop`: an arbitrary order, catching each panic and keeping the first. */
    method DrainResources(panics: set<string>)
      returns (log: seq<Effect>, firstPanic: Option<string>, ghost order: seq<string>)
      requires forall n :: n in resources ==> InTable(View(), n)
      modifies this`resources
      ensures resources == map[]
      ensures Enumerates(order, old(resources).Keys)
      ensures forall k :: 0 <= k < |order| ==> InTable(old(View()), order[k])
      ensures log == DestroyAll(old(View()), order)
      ensures firstPanic == PanicAt(order, FirstPanic(order, panics))
    {
      ghost var h := View();
      firstPanic := None;
      log, order := [], [];
      while resources != map[]
        invariant resources.Keys <= h.resources.Keys
        invariant forall n :: n in resources ==> resources[n] == h.resources[n]
        invariant Enumerates(order, h.resources.Keys - resources.Keys)
        invariant forall k :: 0 <= k < |order| ==> InTable(h, order[k])
        invariant |log| == |order| && forall k :: 0 <= k < |order| ==> log[k] == DestroyOne(h, order[k])
        invariant firstPanic == PanicAt(order, FirstPanic(order, panics))
        decreases resources.Keys
      {
        assert resources.Keys != {};
        var name :| name in resources;
        var meta := resources[name];
        DrainOne(order, h.resources.Keys, resources.Keys, name);
        resources := resources - {name};
        assert InTable(h, name) && DestroyOne(h, name) == Destroyed(name, meta.typeId, pages[meta.page].mem + meta.offset);
        log := log + [Destroyed(name, meta.typeId, pages[meta.page].mem + meta.offset)];
        if name in panics && firstPanic.None? {
          firstPanic := Some(name);
        }
        FirstPanicAppend(order, name, panics);
        order := order + [name];
      }
    }

    /** `Drop`: drains the table, then unmaps every page, then resumes or reports the first panic. */
    method Drop(panics: set<string>, unwinding: bool) returns (log: seq<Effect>, ghost order: seq<string>)
      requires Valid()
      modifies this`resources
      ensures resources == map[]
      ensures Enumerates(order, old(resources).Keys)
      ensures forall k :: 0 <= k < |order| ==> InTable(old(View()), order[k])
      ensures log == DropLog(old(View()), order, panics, unwinding)
    {
      ghost var h := View();
      TableFits(h);
      var firstPanic;
      log, firstPanic, order := DrainResources(panics);
      var unmapped := UnmapPages();
      log := log + unmapped;
      if firstPanic.Some? {
        log := log + [if unwinding then Reported else Resumed(firstPanic.value)];
      }
    }
  }
}
