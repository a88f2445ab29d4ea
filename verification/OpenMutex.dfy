/** The OpenMutex request: find the mutex of that name or construct it, on behalf of any client. */
module OpenMutex {
  import opened Outcomes
  import opened Alignment
  import opened ShmHeap
  import opened Allocator

  /** One request as it reaches the environment thread, with the outside world's answers. */
  datatype Call = Call(name: string, onEmpty: Mapping, onFull: Mapping, failure: Option<int>)

  function ToRequest(c: Call, mutex: Layout): Request {
    Request(c.name, mutex, c.onEmpty, c.onFull, c.failure)
  }

  /** `handle_open_mutex` up to the reply. */
  method HandleOpenMutex(c: Call, mutex: Layout, shm: ShmAllocator) returns (r: Result<Location, AllocError>)
    requires shm.Valid() && LegalRequest(shm.View(), ToRequest(c, mutex))
    modifies shm
    ensures shm.Valid()
    ensures (shm.View(), r) == Open(old(shm.View()), c, mutex)
  {
    TableInBounds(shm.View());
    var found := shm.FindResource(c.name, mutex.typeId);
    match found {
      case Err(e) => return Err(e);
      case Ok(Some(location)) => return Ok(location);
      case Ok(None) =>
        r := shm.ConstructInShm(c.name, mutex, c.onEmpty, c.onFull, c.failure);
    }
  }

  ghost predicate InBounds(h: Heap) {
    forall n :: n in h.resources ==> h.resources[n].page < |h.pages|
  }

  lemma TableInBounds(h: Heap)
    requires Inv(h)
    ensures InBounds(h)
  {
    forall n | n in h.resources ensures h.resources[n].page < |h.pages| {
      assert SlotOk(h, h.slots[h.home[n]]);
    }
  }

  ghost function Open(h: Heap, c: Call, mutex: Layout): (Heap, Result<Location, AllocError>)
    requires InBounds(h) && mutex.align > 0
  {
    match Find(h, c.name, mutex.typeId)
    case Err(e) => (h, Err(e))
    case Ok(Some(location)) => (h, Ok(location))
    case Ok(None) => Construct(h, ToRequest(c, mutex))
  }

  // ----- the write-once map a client sees -----

  ghost function Table(h: Heap): map<string, Location>
    requires InBounds(h)
  {
    map n | n in h.resources :: Location(h.resources[n].page, h.resources[n].offset, h.pages[h.resources[n].page].fd)
  }

  /** Opening in a write-once map: a bound name answers its value, an unbound one is bound once. */
  ghost function OpenWriteOnce(table: map<string, Location>, name: string, candidate: Result<Location, AllocError>)
    : (map<string, Location>, Result<Location, AllocError>)
  {
    if name in table then (table, Ok(table[name]))
    else
      match candidate
      case Ok(location) => (table[name := location], Ok(location))
      case Err(e) => (table, Err(e))
  }

  ghost predicate OnlyMutexes(h: Heap, mutex: Layout) {
    Inv(h) && NamesAreMutexes(h, mutex) && SlotsAreMutexes(h, mutex)
  }

  ghost predicate NamesAreMutexes(h: Heap, mutex: Layout) {
    forall n :: n in h.resources ==> h.resources[n].typeId == mutex.typeId
  }

  ghost predicate SlotsAreMutexes(h: Heap, mutex: Layout) {
    forall i :: 0 <= i < |h.slots| ==> h.slots[i].layout == mutex
  }

  /** The errors a mutex can fail to open with: the kernel, its size, its alignment, its constructor. */
  predicate Expected(e: AllocError) {
    e.Os? || e.TooLarge? || e.AlignmentTooLarge? || e.ConstructorFailed?
  }

  lemma MissKeepsMutexes(h: Heap, r: Request, mutex: Layout)
    requires OnlyMutexes(h, mutex) && LegalRequest(h, r) && r.layout == mutex
    ensures OnlyMutexes(Construct(h, r).0, mutex)
    ensures Construct(h, r).0.pageSize == h.pageSize
  {
    ConstructKeepsInv(h, r);
    MissKeepsNames(h, r, mutex);
    MissKeepsSlots(h, r, mutex);
  }

  lemma MissKeepsNames(h: Heap, r: Request, mutex: Layout)
    requires Inv(h) && NamesAreMutexes(h, mutex) && LegalRequest(h, r) && r.layout == mutex
    ensures NamesAreMutexes(Construct(h, r).0, mutex)
  {
    FailureIsAtomic(h, r);
  }

  lemma MissKeepsSlots(h: Heap, r: Request, mutex: Layout)
    requires Inv(h) && SlotsAreMutexes(h, mutex) && LegalRequest(h, r) && r.layout == mutex
    ensures SlotsAreMutexes(Construct(h, r).0, mutex)
  {
    var slots := ConstructDelta(h, r);
  }

  lemma MissBindsOnce(h: Heap, r: Request)
    requires Inv(h) && LegalRequest(h, r) && InBounds(h) && r.name !in h.resources
    ensures InBounds(Construct(h, r).0)
    ensures (Table(Construct(h, r).0), Construct(h, r).1) == OpenWriteOnce(Table(h), r.name, Construct(h, r).1)
    ensures Construct(h, r).1.Err? ==> Expected(Construct(h, r).1.error)
  {
    FailureIsAtomic(h, r);
    RefusalIsExpected(h, r);
    var (h', made) := Construct(h, r);
    if made.Ok? {
      TableGrows(h, h', r.name, r.layout.typeId, made.value);
    } else {
      TableStays(h, h');
    }
  }

  lemma TableGrows(h: Heap, h': Heap, name: string, typeId: nat, location: Location)
    requires InBounds(h) && h.pages <= h'.pages && location.page < |h'.pages|
    requires h'.resources == h.resources[name := Metadata(typeId, location.page, location.offset)]
    requires location.fd == h'.pages[location.page].fd
    ensures InBounds(h') && Table(h') == Table(h)[name := location]
  {
  }

  lemma TableStays(h: Heap, h': Heap)
    requires InBounds(h) && h.pages <= h'.pages && h'.resources == h.resources
    ensures InBounds(h') && Table(h') == Table(h)
  {
  }

  lemma RefusalIsExpected(h: Heap, r: Request)
    requires Inv(h) && LegalRequest(h, r) && r.name !in h.resources
    ensures Construct(h, r).1.Err? ==> Expected(Construct(h, r).1.error)
  {
    var carved, h2, offset := ConstructCases(h, r);
  }

  /**
   * Opening a mutex is one step of the write-once map, whose candidate is what the constructor
   * made; the name-in-use error, the type mismatch and the `unwrap` panic never occur.
   */
  lemma OpenRefines(h: Heap, c: Call, mutex: Layout)
    requires OnlyMutexes(h, mutex) && LegalRequest(h, ToRequest(c, mutex)) && InBounds(h)
    ensures var (h', r) := Open(h, c, mutex);
      && OnlyMutexes(h', mutex) && InBounds(h') && h'.pageSize == h.pageSize
      && (Table(h'), r) == OpenWriteOnce(Table(h), c.name, Construct(h, ToRequest(c, mutex)).1)
      && (r.Err? ==> Expected(r.error))
  {
    if c.name !in h.resources {
      MissKeepsMutexes(h, ToRequest(c, mutex), mutex);
      MissBindsOnce(h, ToRequest(c, mutex));
    }
  }

  /** The kernel's answer that counts for this request, if it opens a page. */
  function PageAnswer(h: Heap, c: Call): Mapping {
    if h.pages == [] then c.onEmpty else c.onFull
  }

  /**
   * What a client is told about a name not opened before, in terms of its own request: the kernel's or
   * the constructor's own error, or the place of a new slot of the mutex's layout, on the newest page.
   */
  lemma MissAnswersExactly(h: Heap, c: Call, mutex: Layout)
    requires OnlyMutexes(h, mutex) && LegalRequest(h, ToRequest(c, mutex)) && InBounds(h)
    requires c.name !in h.resources && mutex.size <= h.pageSize && mutex.align <= h.pageSize
    ensures var (h', r) := Open(h, c, mutex);
      && (OpensPage(h, mutex) && PageAnswer(h, c).MapFailed? ==> r == Err(Os(PageAnswer(h, c).code)))
      && (OpensPage(h, mutex) && PageAnswer(h, c).Mapped? ==> h'.pages == h.pages + [PageAnswer(h, c).page])
      && (!OpensPage(h, mutex) ==> h'.pages == h.pages)
      && (!(OpensPage(h, mutex) && PageAnswer(h, c).MapFailed?) ==>
            match c.failure
            case Some(code) => r == Err(ConstructorFailed(code))
            case None =>
              && r.Ok? && |h'.slots| == |h.slots| + 1 && |h'.pages| > 0
              && var s := h'.slots[|h.slots|];
              && s.name == c.name && s.layout == mutex && s.page == |h'.pages| - 1
              && r.value == Location(s.page, s.offset, h'.pages[s.page].fd))
  {
    var q := ToRequest(c, mutex);
    ErrorsExactly(h, q);
    KernelAnswersAreKept(h, q);
    FailureIsAtomic(h, q);
    var slots := ConstructDelta(h, q);
    var carved, h2, offset := ConstructCases(h, q);
  }

  // ----- runs -----

  ghost predicate LegalCalls(h: Heap, cs: seq<Call>, mutex: Layout)
    requires h.pageSize > 0
    decreases |cs|
  {
    cs == [] ||
    (&& InBounds(h) && LegalRequest(h, ToRequest(cs[0], mutex))
     && Open(h, cs[0], mutex).0.pageSize > 0
     && LegalCalls(Open(h, cs[0], mutex).0, cs[1..], mutex))
  }

  /** The heap after all calls, and what each call answered. */
  ghost function Serve(h: Heap, cs: seq<Call>, mutex: Layout): (r: (Heap, seq<Result<Location, AllocError>>))
    requires h.pageSize > 0 && LegalCalls(h, cs, mutex)
    ensures |r.1| == |cs|
    decreases |cs|
  {
    if cs == [] then (h, []) else
      var (h', answer) := Open(h, cs[0], mutex);
      var (final, answers) := Serve(h', cs[1..], mutex);
      (final, [answer] + answers)
  }

  /** The same run on the write-once map, given what each constructor would have made. */
  ghost function ServeWriteOnce(table: map<string, Location>, names: seq<string>, made: seq<Result<Location, AllocError>>)
    : (r: (map<string, Location>, seq<Result<Location, AllocError>>))
    requires |names| == |made|
    ensures |r.1| == |names|
    decreases |names|
  {
    if names == [] then (table, []) else
      var (table', answer) := OpenWriteOnce(table, names[0], made[0]);
      var (final, answers) := ServeWriteOnce(table', names[1..], made[1..]);
      (final, [answer] + answers)
  }

  ghost function Names(cs: seq<Call>): seq<string> {
    seq(|cs|, i requires 0 <= i < |cs| => cs[i].name)
  }

  lemma ServeOne(h: Heap, cs: seq<Call>, mutex: Layout) returns (h': Heap, made: Result<Location, AllocError>)
    requires OnlyMutexes(h, mutex) && InBounds(h) && LegalCalls(h, cs, mutex) && cs != []
    ensures OnlyMutexes(h', mutex) && InBounds(h') && LegalCalls(h', cs[1..], mutex)
    ensures var (table', answer) := OpenWriteOnce(Table(h), cs[0].name, made);
      && Table(h') == table'
      && Serve(h, cs, mutex) == (Serve(h', cs[1..], mutex).0, [answer] + Serve(h', cs[1..], mutex).1)
      && (answer.Err? ==> Expected(answer.error))
  {
    OpenRefines(h, cs[0], mutex);
    h', made := Open(h, cs[0], mutex).0, Construct(h, ToRequest(cs[0], mutex)).1;
  }

  lemma WriteOnceCons(table: map<string, Location>, cs: seq<Call>, made: seq<Result<Location, AllocError>>)
    requires |cs| == |made| && cs != []
    ensures var (table', answer) := OpenWriteOnce(table, cs[0].name, made[0]);
      var (final, answers) := ServeWriteOnce(table', Names(cs[1..]), made[1..]);
      ServeWriteOnce(table, Names(cs), made) == (final, [answer] + answers)
  {
    assert Names(cs)[1..] == Names(cs[1..]);
  }

  /** Serving these calls answers as the write-once map does when offered what the constructors made. */
  ghost predicate Refines(h: Heap, cs: seq<Call>, mutex: Layout, made: seq<Result<Location, AllocError>>)
    requires InBounds(h) && h.pageSize > 0 && LegalCalls(h, cs, mutex)
  {
    && |made| == |cs|
    && var (final, answers) := Serve(h, cs, mutex);
    && InBounds(final)
    && ServeWriteOnce(Table(h), Names(cs), made) == (Table(final), answers)
    && (forall i :: 0 <= i < |cs| && answers[i].Err? ==> Expected(answers[i].error))
  }

  lemma RefinesCons(h: Heap, h': Heap, cs: seq<Call>, mutex: Layout, first: Result<Location, AllocError>,
                    rest: seq<Result<Location, AllocError>>)
    requires InBounds(h) && h.pageSize > 0 && LegalCalls(h, cs, mutex) && cs != []
    requires InBounds(h') && h'.pageSize > 0 && LegalCalls(h', cs[1..], mutex) && Refines(h', cs[1..], mutex, rest)
    requires var (table', answer) := OpenWriteOnce(Table(h), cs[0].name, first);
      && Table(h') == table'
      && Serve(h, cs, mutex) == (Serve(h', cs[1..], mutex).0, [answer] + Serve(h', cs[1..], mutex).1)
      && (answer.Err? ==> Expected(answer.error))
    ensures Refines(h, cs, mutex, [first] + rest)
  {
    WriteOnceCons(Table(h), cs, [first] + rest);
  }

  /** Every run of requests is a run of the write-once map with the same answers. */
  lemma {:induction false} ServeRefines(h: Heap, cs: seq<Call>, mutex: Layout)
    returns (made: seq<Result<Location, AllocError>>)
    requires OnlyMutexes(h, mutex) && InBounds(h) && LegalCalls(h, cs, mutex)
    ensures OnlyMutexes(Serve(h, cs, mutex).0, mutex)
    ensures Refines(h, cs, mutex, made)
    decreases |cs|
  {
    if cs == [] {
      return [];
    }
    var h', first := ServeOne(h, cs, mutex);
    var rest := ServeRefines(h', cs[1..], mutex);
    made := [first] + rest;
    RefinesCons(h, h', cs, mutex, first, rest);
  }

  /** In a write-once map a bound name keeps its value and is answered with it ever after. */
  lemma {:induction false} WriteOnceIsStable(table: map<string, Location>, names: seq<string>, made: seq<Result<Location, AllocError>>)
    requires |names| == |made|
    ensures var (final, answers) := ServeWriteOnce(table, names, made);
      && (forall n :: n in table ==> n in final && final[n] == table[n])
      && (forall i :: 0 <= i < |names| && answers[i].Ok? ==> names[i] in final && final[names[i]] == answers[i].value)
      && (forall i :: 0 <= i < |names| && names[i] in table ==> answers[i] == Ok(table[names[i]]))
      && (forall i, j :: 0 <= i <= j < |names| && names[i] == names[j] && answers[i].Ok? ==> answers[j] == answers[i])
    decreases |names|
  {
    if names != [] {
      WriteOnceIsStable(OpenWriteOnce(table, names[0], made[0]).0, names[1..], made[1..]);
    }
  }

  /** The bytes of two resources of this size do not meet. */
  ghost predicate BytesApart(h: Heap, a: Location, b: Location, size: nat) {
    && a.page < |h.pages| && b.page < |h.pages|
    && (|| h.pages[a.page].mem + a.offset + size <= h.pages[b.page].mem + b.offset
        || h.pages[b.page].mem + b.offset + size <= h.pages[a.page].mem + a.offset)
  }

  lemma NamesApart(h: Heap, mutex: Layout, m: string, n: string)
    requires OnlyMutexes(h, mutex) && InBounds(h) && m in h.resources && n in h.resources && m != n
    ensures BytesApart(h, Table(h)[m], Table(h)[n], mutex.size)
  {
    var i, j := h.home[m], h.home[n];
    assert h.slots[i].name != h.slots[j].name;
    if i < j {
      SlotsAreDisjoint(h, i, j);
    } else {
      SlotsAreDisjoint(h, j, i);
    }
  }

  /**
   * Over any sequence of requests from any clients: once a name was opened, every later request for
   * it gets the same page, offset and descriptor and never fails; the answers for two names never
   * share a byte; and only the kernel, the sizes or the constructor can make a request fail.
   */
  lemma AnswersAreStable(pageSize: nat, cs: seq<Call>, mutex: Layout, i: nat, j: nat)
    requires PowerOfTwo(pageSize) && LegalCalls(EmptyHeap(pageSize), cs, mutex)
    requires i <= j < |cs|
    ensures var (final, answers) := Serve(EmptyHeap(pageSize), cs, mutex);
      && (answers[i].Ok? && cs[i].name == cs[j].name ==> answers[j] == answers[i])
      && (answers[i].Ok? && answers[j].Ok? && cs[i].name != cs[j].name ==>
            BytesApart(final, answers[i].value, answers[j].value, mutex.size))
      && (answers[i].Err? ==> Expected(answers[i].error))
  {
    var h := EmptyHeap(pageSize);
    var made := ServeRefines(h, cs, mutex);
    WriteOnceIsStable(Table(h), Names(cs), made);
    var (final, answers) := Serve(h, cs, mutex);
    if answers[i].Ok? && answers[j].Ok? && cs[i].name != cs[j].name {
      assert Names(cs)[i] == cs[i].name && Names(cs)[j] == cs[j].name;
      NamesApart(final, mutex, cs[i].name, cs[j].name);
    }
  }
}
