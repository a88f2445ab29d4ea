/** What the allocator's destructor does, as a log of effects, for any drain order. */
module Destruction {
  import opened ShmHeap

  datatype Effect =
    | Destroyed(name: string, typeId: nat, address: nat)
    | Unmapped(mem: nat)
    | Resumed(name: string)   // the panic of this resource's destructor continues
    | Reported                // already unwinding: the panic is only written to stderr

  /** The order enumerates the names exactly once each: one possible `HashMap::drain`. */
  ghost predicate Enumerates(order: seq<string>, names: set<string>) {
    && (forall n :: n in names <==> n in order)
    && (forall i, j :: 0 <= i < j < |order| ==> order[i] != order[j])
  }

  /** Taking one more name out of those left keeps the order an enumeration of those taken. */
  lemma DrainOne(order: seq<string>, all: set<string>, left: set<string>, name: string)
    requires left <= all && name in left && Enumerates(order, all - left)
    ensures Enumerates(order + [name], all - (left - {name}))
  {
    var next := order + [name];
    assert all - (left - {name}) == (all - left) + {name};
    forall n ensures n in all - (left - {name}) <==> n in next {
      assert n in next <==> n in order || n == name;
    }
  }

  ghost predicate InTable(h: Heap, name: string) {
    name in h.resources && h.resources[name].page < |h.pages|
  }

  function DestroyOne(h: Heap, name: string): Effect
    requires InTable(h, name)
  {
    var meta := h.resources[name];
    Destroyed(name, meta.typeId, h.pages[meta.page].mem + meta.offset)
  }

  ghost function DestroyAll(h: Heap, order: seq<string>): seq<Effect>
    requires forall k :: 0 <= k < |order| ==> InTable(h, order[k])
  {
    seq(|order|, k requires 0 <= k < |order| => DestroyOne(h, order[k]))
  }

  ghost function UnmapAll(pages: seq<Page>): seq<Effect> {
    seq(|pages|, i requires 0 <= i < |pages| => Unmapped(pages[i].mem))
  }

  /** The index of the first panicking destructor in drain order, or the length if none panics. */
  ghost function FirstPanic(order: seq<string>, panics: set<string>): (first: nat)
    ensures first <= |order|
    ensures first < |order| ==> order[first] in panics
    ensures forall i :: 0 <= i < first ==> order[i] !in panics
  {
    if order == [] then 0 else
      var last := |order| - 1;
      var first := FirstPanic(order[..last], panics);
      if first < last || order[last] in panics then first else |order|
  }

  lemma FirstPanicAppend(order: seq<string>, name: string, panics: set<string>)
    ensures var first := FirstPanic(order, panics);
      FirstPanic(order + [name], panics) == if first < |order| || name in panics then first else |order| + 1
  {
    assert (order + [name])[..|order|] == order;
  }

  ghost function LastEffect(order: seq<string>, first: nat, unwinding: bool): seq<Effect> {
    if first >= |order| then [] else if unwinding then [Reported] else [Resumed(order[first])]
  }

  ghost function DropLog(h: Heap, order: seq<string>, panics: set<string>, unwinding: bool): seq<Effect>
    requires forall k :: 0 <= k < |order| ==> InTable(h, order[k])
  {
    DestroyAll(h, order) + UnmapAll(h.pages) + LastEffect(order, FirstPanic(order, panics), unwinding)
  }

  lemma TableFits(h: Heap)
    requires Inv(h)
    ensures forall n :: n in h.resources ==> InTable(h, n)
    ensures forall i :: 0 <= i < |h.slots| ==> h.slots[i].page < |h.pages|
  {
    forall i | 0 <= i < |h.slots| ensures h.slots[i].page < |h.pages| {
      assert SlotOk(h, h.slots[i]);
    }
  }

  /** The parts of a concatenation by index. */
  lemma Parts(a: seq<Effect>, b: seq<Effect>, c: seq<Effect>)
    ensures var log := a + b + c;
      && (forall k :: 0 <= k < |a| ==> log[k] == a[k])
      && (forall k :: |a| <= k < |a| + |b| ==> log[k] == b[k - |a|])
      && (forall k :: |a| + |b| <= k < |log| ==> log[k] == c[k - |a| - |b|])
  {
  }

  /**
   * The log in three parts: destructor calls, then one unmap attempt per page, then the surviving
   * panic, which is the first one in drain order.
   */
  lemma LogShape(h: Heap, order: seq<string>, panics: set<string>, unwinding: bool)
    requires forall k :: 0 <= k < |order| ==> InTable(h, order[k])
    ensures var log := DropLog(h, order, panics, unwinding);
      && |order| + |h.pages| <= |log| <= |order| + |h.pages| + 1
      && (forall k :: 0 <= k < |log| ==> (log[k].Destroyed? <==> k < |order|))
      && (forall k :: 0 <= k < |order| ==> log[k] == DestroyOne(h, order[k]))
      && (forall k :: 0 <= k < |log| ==> (log[k].Unmapped? <==> |order| <= k < |order| + |h.pages|))
      && (forall k :: |order| <= k < |order| + |h.pages| ==> log[k] == Unmapped(h.pages[k - |order|].mem))
      && var first := FirstPanic(order, panics);
      && (|log| > |order| + |h.pages| <==> first < |order|)
      && (first < |order| ==> log[|log| - 1] == if unwinding then Reported else Resumed(order[first]))
  {
    Parts(DestroyAll(h, order), UnmapAll(h.pages), LastEffect(order, FirstPanic(order, panics), unwinding));
  }

  /** Effect `k` is the only destructor call for slot `i`'s resource, at the slot's own address. */
  ghost predicate DestroysSlot(h: Heap, log: seq<Effect>, k: nat, i: nat)
    requires k < |log| && i < |h.slots| && h.slots[i].page < |h.pages|
  {
    && h.slots[i].live
    && log[k] == Destroyed(h.slots[i].name, h.slots[i].layout.typeId, Address(h, h.slots[i]))
    && (forall k' :: 0 <= k' < |log| && log[k'].Destroyed? && log[k'].name == h.slots[i].name ==> k' == k)
  }

  lemma DestroysItsSlot(h: Heap, order: seq<string>, panics: set<string>, unwinding: bool, k: nat)
    requires TableOk(h) && Enumerates(order, h.resources.Keys) && k < |order|
    requires forall k :: 0 <= k < |order| ==> InTable(h, order[k])
    requires forall i :: 0 <= i < |h.slots| ==> h.slots[i].page < |h.pages|
    ensures order[k] in h.home
    ensures k < |DropLog(h, order, panics, unwinding)|
    ensures DestroysSlot(h, DropLog(h, order, panics, unwinding), k, h.home[order[k]])
  {
    assert order[k] in order;
    LogShape(h, order, panics, unwinding);
    var log := DropLog(h, order, panics, unwinding);
    forall k' | 0 <= k' < |log| && log[k'].Destroyed? && log[k'].name == order[k] ensures k' == k {
      assert log[k'] == DestroyOne(h, order[k']);
    }
  }

  /**
   * For every drain order and every set of panicking destructors, the destructor calls and the
   * constructed slots match one to one: each slot whose constructor succeeded is destroyed by
   * exactly one call, at its own address, and each call destroys such a slot.
   */
  lemma EveryResourceDestroyedOnce(h: Heap, order: seq<string>, panics: set<string>, unwinding: bool)
    requires Inv(h) && Enumerates(order, h.resources.Keys)
    ensures forall k :: 0 <= k < |order| ==> InTable(h, order[k])
    ensures forall i :: 0 <= i < |h.slots| ==> h.slots[i].page < |h.pages|
    ensures var log := DropLog(h, order, panics, unwinding);
      && (forall i :: 0 <= i < |h.slots| && h.slots[i].live ==>
            exists k :: 0 <= k < |order| && DestroysSlot(h, log, k, i))
      && (forall k :: 0 <= k < |order| ==> order[k] in h.home && DestroysSlot(h, log, k, h.home[order[k]]))
  {
    TableFits(h);
    var log := DropLog(h, order, panics, unwinding);
    forall k | 0 <= k < |order| ensures order[k] in h.home && DestroysSlot(h, log, k, h.home[order[k]]) {
      DestroysItsSlot(h, order, panics, unwinding, k);
    }
    forall i | 0 <= i < |h.slots| && h.slots[i].live ensures exists k :: 0 <= k < |order| && DestroysSlot(h, log, k, i) {
      assert h.slots[i].name in order && h.home[h.slots[i].name] == i;
      var k :| 0 <= k < |order| && order[k] == h.slots[i].name;
      DestroysItsSlot(h, order, panics, unwinding, k);
    }
  }
}
