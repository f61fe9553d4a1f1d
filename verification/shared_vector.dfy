/**
 * The unfinished copy-on-write `SharedVector` of
 * Sources/INCOMPLETE/SharedVector.swift, modelled as written: a vector object
 * points at a heap header `(refCount, size, capacity)` followed by its element
 * storage; other references to the same header exist only as the count.
 *
 * Two things of the source shape everything here and are kept as they are:
 * `endIndex` starts at 1 and only a header write changes it, and the
 * copy-on-write guard requires BOTH a shared header and a larger requested
 * capacity.
 */
module SharedVectors {
  import opened Optional

  /** Swift's `Int.max` on a 64-bit platform. */
  const IntMax: int := 0x7FFF_FFFF_FFFF_FFFF

  /** The value `endIndex` starts with. */
  const InitialEndIndex: int := 1

  /**
   * `MemoryLayout<T>.size`, `MemoryLayout<SharedVectorHeader>.size` and
   * `MemoryLayout<SharedVectorHeader>.alignment` of the platform.
   */
  datatype Layout = Layout(elementSize: nat, headerSize: nat, headerAlignment: nat)

  /** The allocation size for `capacity` elements is computed without trapping: no `Int` overflow, no negative `UInt`. */
  predicate SizeFits(layout: Layout, capacity: int) {
    && -IntMax - 1 <= layout.elementSize * capacity <= IntMax
    && 0 <= layout.elementSize * capacity + layout.headerSize <= IntMax
    && layout.headerAlignment <= IntMax
  }

  datatype Allocation = Allocation(size: nat, alignment: nat)

  /** `calculateSizeAlignment(capacity:)`. */
  function CalculateSizeAlignment(layout: Layout, capacity: int): (r: Allocation)
    requires SizeFits(layout, capacity)
    ensures r.size - layout.headerSize == layout.elementSize * capacity
    ensures r.alignment == layout.headerAlignment
  {
    Allocation(layout.elementSize * capacity + layout.headerSize, layout.headerAlignment)
  }

  /**
   * The two `areEqual` overloads: `==` for `Equatable` element types, always
   * false for the others (`equatable` says which one is meant). Inside the
   * generic class body Swift binds the call statically to the unconstrained
   * overload, so `SharedVector.Set` passes `false`.
   */
  function AreEqual<T(==)>(equatable: bool, a: T, b: T): (r: bool)
    ensures r ==> a == b
    ensures !equatable ==> !r
    ensures equatable ==> (r <==> a == b)
  {
    equatable && a == b
  }

  /**
   * The guard of `aboutToWrite`: copy only when shared AND asked for more
   * capacity. Without a request it never passes, so a subscript write never
   * copies; past it the request is larger than the capacity ("Tried to shrink
   * a vector!" cannot fire) and the count stays positive after its decrement
   * (the old storage is never freed there).
   */
  predicate NeedsCopy(refCount: int, capacity: int, newCapacity: Option<int>): (r: bool)
    ensures capacity >= 0 && newCapacity == None ==> !r
    ensures r && capacity >= 0 ==> newCapacity.Some? && newCapacity.value > capacity
    ensures r ==> refCount - 1 >= 1
  {
    refCount > 1 && newCapacity.GetOr(0) > capacity
  }

  /** `SharedVectorHeader`, with the element storage that follows it in memory. */
  class Header<T> {
    var refCount: int
    var size: int
    var capacity: int
    const elements: array<T>

    constructor (refCount: int, size: int, capacity: int, elements: array<T>)
      ensures this.refCount == refCount && this.size == size && this.capacity == capacity
      ensures this.elements == elements
    {
      this.refCount := refCount;
      this.size := size;
      this.capacity := capacity;
      this.elements := elements;
    }
  }

  /** One `slint_shared_vector_free` call. */
  datatype Free<T> = Free(header: Header<T>, allocation: Allocation)

  /**
   * The toolkit's side: the shared empty header (`SHARED_NULL`, refCount -1)
   * and the allocator, whose frees are recorded.
   */
  class VectorRuntime<T(0)> {
    const empty: Header<T>
    var frees: seq<Free<T>>

    ghost predicate Valid()
      reads this, empty
    {
      empty.refCount == -1 && empty.size == 0 && empty.capacity == 0 && empty.elements.Length == 0
    }

    constructor ()
      ensures Valid() && fresh(empty) && frees == []
    {
      var storage := new T[0];
      empty := new Header(-1, 0, 0, storage);
      frees := [];
    }

    /**
     * `slint_shared_vector_allocate(size, align)`: fresh memory for a header
     * and `slots` elements. The header fields are left for the caller to set.
     */
    method Allocate(allocation: Allocation, slots: nat) returns (h: Header<T>)
      ensures fresh(h) && fresh(h.elements) && h.elements.Length == slots
    {
      var storage := new T[slots];
      h := new Header(0, 0, 0, storage);
    }

    /** `slint_shared_vector_free(ptr, size, align)`. */
    method Release(h: Header<T>, allocation: Allocation)
      modifies this
      ensures frees == old(frees) + [Free(h, allocation)]
    {
      frees := frees + [Free(h, allocation)];
    }
  }

  /** `newVector(capacity:)`: a fresh header with one reference, no elements and the requested capacity. */
  method NewVector<T(0)>(runtime: VectorRuntime<T>, layout: Layout, capacity: int) returns (h: Header<T>)
    requires 0 <= capacity && SizeFits(layout, capacity)
    ensures fresh(h) && fresh(h.elements)
    ensures h.refCount == 1 && h.size == 0 && h.capacity == capacity
    ensures h.elements.Length == capacity
  {
    var allocation := CalculateSizeAlignment(layout, capacity);
    h := runtime.Allocate(allocation, capacity);
    h.refCount := 1;
    h.size := 0;
    h.capacity := capacity;
  }

  class SharedVector<T(==,0)> {
    const runtime: VectorRuntime<T>
    const layout: Layout
    const startIndex: int
    var endIndex: int
    var headerPtr: Header<T>
    /** Kept equal to the storage after `headerPtr` by the `didSet` observer. */
    var buffer: array<T>

    ghost predicate Valid()
      reads this, headerPtr, runtime, runtime.empty
    {
      && runtime.Valid()
      && startIndex == 0
      && buffer == headerPtr.elements
      && headerPtr.capacity == buffer.Length
      && SizeFits(layout, headerPtr.capacity)
      && 0 <= headerPtr.size
      && 0 <= endIndex
    }

    /** `init()`: points at the shared empty header; `endIndex` is 1. */
    constructor Empty(runtime: VectorRuntime<T>, layout: Layout)
      requires runtime.Valid() && SizeFits(layout, 0)
      ensures Valid()
      ensures this.runtime == runtime && this.layout == layout
      ensures headerPtr == runtime.empty && endIndex == InitialEndIndex
    {
      this.runtime := runtime;
      this.layout := layout;
      startIndex := 0;
      endIndex := InitialEndIndex;
      headerPtr := runtime.empty;
      buffer := runtime.empty.elements;
    }

    /**
     * `init(_ initialValues: T...)`: a fresh header sized for the values, then
     * `copyFromCollection`, whose bound against the initial `endIndex` admits
     * only an empty list.
     */
    constructor WithValues(runtime: VectorRuntime<T>, layout: Layout, initialValues: seq<T>)
      requires runtime.Valid() && SizeFits(layout, |initialValues|)
      requires |initialValues| < InitialEndIndex
      modifies runtime
      ensures Valid()
      ensures this.runtime == runtime && this.layout == layout && fresh(headerPtr) && fresh(buffer)
      ensures headerPtr.refCount == 1 && headerPtr.size == |initialValues| && headerPtr.capacity == |initialValues|
      ensures endIndex == |initialValues| && runtime.frees == old(runtime.frees)
    {
      this.runtime := runtime;
      this.layout := layout;
      startIndex := 0;
      endIndex := InitialEndIndex;
      var h := NewVector(runtime, layout, |initialValues|);
      headerPtr := h;
      buffer := h.elements;
      new;
      CopyFromCollection(initialValues, 0);
    }

    /** The `headerPtr` setter with its `didSet` observer, which rebinds `buffer`. */
    method SetHeaderPtr(h: Header<T>)
      modifies this`headerPtr, this`buffer
      ensures headerPtr == h && buffer == h.elements
    {
      headerPtr := h;
      buffer := h.elements;
    }

    /** The `header` setter: writes the header and resets `endIndex` to the new size. */
    method WriteHeader(refCount: int, size: int)
      modifies headerPtr, this`endIndex
      ensures headerPtr.refCount == refCount && headerPtr.size == size
      ensures headerPtr.capacity == old(headerPtr.capacity)
      ensures endIndex == size
    {
      headerPtr.refCount := refCount;
      headerPtr.size := size;
      endIndex := headerPtr.size;
    }

    /** The subscript getter, bounds-checked against the storage. */
    method Get(position: int) returns (x: T)
      requires Valid()
      requires 0 <= position < buffer.Length
      ensures x == headerPtr.elements[position]
    {
      x := buffer[position];
    }

    /**
     * The subscript setter: bounds-checked; skips the write when `areEqual`
     * holds, otherwise runs `aboutToWrite()` and writes. The statically bound
     * `areEqual` is the always-false one, and without a requested capacity
     * `aboutToWrite()` never copies: even on a shared header the element is
     * written into the shared storage.
     */
    method Set(position: int, newValue: T)
      requires Valid()
      requires 0 <= position < buffer.Length
      modifies this, headerPtr, buffer, runtime
      ensures Valid()
      ensures headerPtr == old(headerPtr) && buffer == old(buffer) && endIndex == old(endIndex)
      ensures headerPtr.refCount == old(headerPtr.refCount) && headerPtr.size == old(headerPtr.size)
      ensures runtime.frees == old(runtime.frees)
      ensures buffer[..] == old(buffer[..])[position := newValue]
      // Set -> AboutToWrite(None) -> return: without a requested capacity the copy path is never taken.
      decreases 1
    {
      if AreEqual(false, newValue, buffer[position]) {
        return;
      }
      AboutToWrite(None);
      buffer[position] := newValue;
    }

    /**
     * `aboutToWrite(newCapacity:)`: when the header is shared and a larger
     * capacity is requested, moves to a fresh header of that capacity filled
     * by `copyFromCollection(self)` and gives up one reference to the old one.
     */
    method AboutToWrite(newCapacity: Option<int>)
      requires Valid()
      requires NeedsCopy(headerPtr.refCount, headerPtr.capacity, newCapacity) ==>
                 endIndex - startIndex < InitialEndIndex && SizeFits(layout, newCapacity.GetOr(0))
      modifies this, headerPtr, runtime
      ensures Valid()
      ensures runtime.frees == old(runtime.frees)
      ensures !NeedsCopy(old(headerPtr.refCount), old(headerPtr.capacity), newCapacity) ==>
                headerPtr == old(headerPtr) && endIndex == old(endIndex) &&
                headerPtr.refCount == old(headerPtr.refCount) && headerPtr.size == old(headerPtr.size)
      ensures NeedsCopy(old(headerPtr.refCount), old(headerPtr.capacity), newCapacity) ==>
                fresh(headerPtr) && fresh(buffer) &&
                headerPtr.refCount == 1 && headerPtr.size == 0 && headerPtr.capacity == newCapacity.GetOr(0) &&
                old(headerPtr).refCount == old(headerPtr.refCount) - 1 &&
                old(headerPtr).size == old(headerPtr.size) &&
                old(headerPtr).capacity == old(headerPtr.capacity) &&
                endIndex == old(headerPtr.size)
      // Only the copy path (a requested capacity) calls CopyFromCollection, which calls Set.
      decreases if newCapacity.Some? then 3 else 0
    {
      if !NeedsCopy(headerPtr.refCount, headerPtr.capacity, newCapacity) {
        return;
      }
      var capacity := newCapacity.GetOr(headerPtr.capacity);
      // "Tried to shrink a vector!" never fires past the guard.
      assert capacity >= headerPtr.capacity;
      var tempSelf := new SharedVector.Empty(runtime, layout);
      var h := NewVector(runtime, layout, capacity);
      tempSelf.SetHeaderPtr(h);
      tempSelf.CopyFromCollection(buffer[startIndex..endIndex], 0);
      WriteHeader(headerPtr.refCount - 1, headerPtr.size);
      if headerPtr.refCount == 0 {
        // The source frees the old storage here; the guard saw a count above 1.
        assert false;
      }
      SetHeaderPtr(tempSelf.headerPtr);
      tempSelf.SetHeaderPtr(runtime.empty);
      tempSelf.Deinit();
    }

    /** `append`: asks for one more slot, writes at `endIndex`, then grows `size` by one. */
    method Append(item: T)
      requires Valid()
      requires headerPtr.refCount > 1 ==>
                 endIndex == 0 && headerPtr.size <= headerPtr.capacity && SizeFits(layout, headerPtr.capacity + 1)
      requires headerPtr.refCount <= 1 ==> endIndex < headerPtr.capacity
      modifies this, headerPtr, buffer, runtime
      ensures Valid()
      ensures runtime.frees == old(runtime.frees)
      ensures old(headerPtr.refCount) <= 1 ==>
                headerPtr == old(headerPtr) && headerPtr.refCount == old(headerPtr.refCount) &&
                headerPtr.size == old(headerPtr.size) + 1 &&
                buffer[..] == old(buffer[..])[old(endIndex) := item]
      ensures old(headerPtr.refCount) > 1 ==>
                fresh(headerPtr) && fresh(buffer) && headerPtr.refCount == 1 && headerPtr.size == 1 &&
                headerPtr.capacity == old(headerPtr.capacity) + 1 &&
                buffer[old(headerPtr.size)] == item &&
                old(headerPtr).refCount == old(headerPtr.refCount) - 1 &&
                old(headerPtr).size == old(headerPtr.size) &&
                old(headerPtr).capacity == old(headerPtr.capacity) &&
                old(buffer)[..] == old(buffer[..])
      ensures endIndex == headerPtr.size
    {
      AboutToWrite(Some(headerPtr.capacity + 1));
      Set(endIndex, item);
      WriteHeader(headerPtr.refCount, headerPtr.size + 1);
    }

    /**
     * `copyFromCollection(_:startingAt:)`: writes the items through the
     * subscript from `startingAt` on, then sets `size` (and so `endIndex`) to
     * `startingAt + items.count`.
     */
    method CopyFromCollection(items: seq<T>, startingAt: int)
      requires Valid()
      requires startingAt + |items| < endIndex
      requires 0 <= startingAt && startingAt + |items| <= buffer.Length
      modifies this, headerPtr, buffer, runtime
      ensures Valid()
      ensures headerPtr == old(headerPtr) && buffer == old(buffer)
      ensures headerPtr.refCount == old(headerPtr.refCount)
      ensures headerPtr.size == startingAt + |items| && endIndex == headerPtr.size
      ensures buffer[..] == old(buffer[..])[..startingAt] + items + old(buffer[..])[startingAt + |items|..]
      ensures runtime.frees == old(runtime.frees)
      // Ranked between AboutToWrite's copy path (3) and Set (1), which it calls.
      decreases 2
    {
      var i := 0;
      while i < |items|
        invariant 0 <= i <= |items|
        invariant Valid()
        invariant headerPtr == old(headerPtr) && buffer == old(buffer) && endIndex == old(endIndex)
        invariant headerPtr.refCount == old(headerPtr.refCount) && headerPtr.size == old(headerPtr.size)
        invariant runtime.frees == old(runtime.frees)
        invariant buffer[..] == old(buffer[..])[..startingAt] + items[..i] + old(buffer[..])[startingAt + i..]
      {
        Set(i + startingAt, items[i]);
        i := i + 1;
      }
      assert headerPtr == runtime.empty ==> startingAt + |items| == 0;
      WriteHeader(headerPtr.refCount, startingAt + |items|);
    }

    /**
     * `deinit`: gives up this reference. A header whose count is not positive
     * (the shared empty one) is left alone; otherwise the count drops by one
     * and the storage is freed when it reaches exactly 0.
     */
    method Deinit()
      requires Valid()
      modifies (if headerPtr.refCount > 0 then {headerPtr} else {}), this`endIndex, runtime
      ensures Valid()
      ensures headerPtr.capacity == old(headerPtr.capacity) && headerPtr.size == old(headerPtr.size)
      ensures old(headerPtr.refCount) <= 0 ==>
                headerPtr.refCount == old(headerPtr.refCount) && runtime.frees == old(runtime.frees)
      ensures old(headerPtr.refCount) > 0 ==> headerPtr.refCount == old(headerPtr.refCount) - 1
      ensures old(headerPtr.refCount) > 1 ==> runtime.frees == old(runtime.frees)
      ensures old(headerPtr.refCount) == 1 ==>
                runtime.frees == old(runtime.frees) + [Free(headerPtr, CalculateSizeAlignment(layout, headerPtr.capacity))]
    {
      if !(headerPtr.refCount > 0) {
        return;
      }
      WriteHeader(headerPtr.refCount - 1, headerPtr.size);
      if headerPtr.refCount != 0 {
        return;
      }
      var allocation := CalculateSizeAlignment(layout, headerPtr.capacity);
      runtime.Release(headerPtr, allocation);
    }

    /** `freeVector`: frees storage nobody references and points at the shared empty header. */
    method FreeVector()
      requires Valid()
      requires headerPtr.refCount == 0
      modifies this`headerPtr, this`buffer, runtime
      ensures Valid()
      ensures headerPtr == runtime.empty
      ensures runtime.frees == old(runtime.frees) + [Free(old(headerPtr), CalculateSizeAlignment(layout, old(headerPtr.capacity)))]
    {
      var allocation := CalculateSizeAlignment(layout, headerPtr.capacity);
      runtime.Release(headerPtr, allocation);
      SetHeaderPtr(runtime.empty);
    }
  }

  /**
   * Releasing a vector on the shared empty header frees nothing; releasing
   * the only reference to a fresh header frees it once.
   */
  method ReleaseScenario(layout: Layout) returns (emptyFrees: nat, ownedFrees: nat)
    requires SizeFits(layout, 0)
    ensures emptyFrees == 0 && ownedFrees == 1
  {
    var runtime := new VectorRuntime<int>();
    var e := new SharedVector.Empty(runtime, layout);
    e.Deinit();
    emptyFrees := |runtime.frees|;
    var v := new SharedVector.WithValues(runtime, layout, []);
    v.Deinit();
    ownedFrees := |runtime.frees|;
  }
}
