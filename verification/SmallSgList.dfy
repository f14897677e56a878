/**
 The scatter-gather list with inline storage for eight entries and a heap spill.

 `data_` points at nothing, at the inline array or at the heap block; `Contents` is what
 `data()[0..size())` holds. `copies` counts the elements moved by every reallocation.
 */
module SmallSgList {

  const INLINE: nat := 8

  datatype Data = Null | Inline | Heap

  class List<T(0)> {
    const inline: array<T>
    var heap: array?<T>
    var heapCapacity: nat
    var data: Data
    var size: nat
    ghost var copies: nat

    ghost predicate Valid()
      reads this, inline, heap
    {
      && inline.Length == INLINE
      && (heap == null <==> heapCapacity == 0)
      && (heap != null ==> heap != inline && heap.Length == heapCapacity && heapCapacity > INLINE)
      && (data == Null ==> size == 0)
      && (data == Inline ==> size <= INLINE)
      && (data == Heap ==> heap != null && INLINE < size <= heapCapacity)
    }

    ghost function Contents(): seq<T>
      requires Valid()
      reads this, inline, heap
    {
      if data == Heap then heap[..size] else inline[..size]
    }

    // No heap block waits behind a list that still fits inline.
    ghost predicate Sound()
      reads this, inline, heap
    {
      Valid() && (size <= INLINE ==> heapCapacity == 0)
    }

    // Reached from a fresh list by appends alone.
    ghost predicate Grown()
      reads this, inline, heap
    {
      && Sound()
      && (size <= INLINE ==> copies == 0)
      && (size > INLINE ==> data == Heap && copies == heapCapacity - INLINE && heapCapacity < 2 * size)
    }

    constructor ()
      ensures Valid() && Grown() && size == 0 && data == Null && heap == null
      ensures Contents() == [] && fresh(inline)
    {
      inline := new T[INLINE];
      heap := null;
      heapCapacity := 0;
      data := Null;
      size := 0;
      copies := 0;
    }

    // The heap block, if any, is kept.
    method Clear()
      requires Valid()
      modifies this`data, this`size
      ensures Valid() && Contents() == [] && size == 0 && data == Null
    {
      data := Null;
      size := 0;
    }

    method Reserve(count: nat)
      requires Valid()
      modifies this`heap, this`heapCapacity, this`data, this`copies
      ensures Valid() && Contents() == old(Contents()) && data == old(data)
      ensures if count <= INLINE || count <= old(heapCapacity)
              then heap == old(heap) && heapCapacity == old(heapCapacity) && copies == old(copies)
              else fresh(heap) && heapCapacity == count && heap[..size] == Contents() && copies == old(copies) + size
    {
      if count <= INLINE || count <= heapCapacity { return; }
      var block := new T[count];
      var i := 0;
      while i < size
        invariant Valid() && 0 <= i <= size && |Contents()| == size
        invariant block[..i] == Contents()[..i]
        modifies block
      {
        block[i] := if data == Heap then heap[i] else inline[i];
        i := i + 1;
      }
      copies := copies + size;
      heap := block;
      heapCapacity := count;
    }

    // append_uninitialized followed by the caller's write through the returned reference.
    // The append keeps what was there, except when the list sits in a full inline array
    // while a heap block is already allocated: then it continues on that block's old
    // contents.
    method Append(x: T)
      requires Valid()
      modifies this, inline, heap
      ensures Valid() && (heap == old(heap) || fresh(heap))
      ensures old(Stale()) ==> Contents() == old(heap[..INLINE]) + [x]
      ensures !old(Stale()) ==> Contents() == old(Contents()) + [x]
      ensures (old(Sound()) ==> Sound()) && (old(Grown()) ==> Grown())
      ensures size == old(size) + 1 && data != Null
      ensures data == Inline ==> heap == old(heap) && (heap != null ==> heap[..] == old(heap[..]))
    {
      var index := size;
      var target := size + 1;
      if target > INLINE && target > heapCapacity {
        var doubled := if heapCapacity == 0 then INLINE * 2 else heapCapacity * 2;
        Reserve(if target > doubled then target else doubled);
      }
      if data == Null {
        data := Inline;
      } else if target > INLINE {
        data := Heap;
      }
      size := target;
      if data == Heap { heap[index] := x; } else { inline[index] := x; }
    }

    predicate Stale()
      reads this
    {
      data == Inline && size == INLINE && heapCapacity > INLINE
    }

    // data_ == heap_.get()
    predicate UsesHeap()
      reads this
    {
      data == Heap || (data == Null && heap == null)
    }
  }

  // From a fresh list any number of appends leaves exactly what was written, across the
  // spill and every doubling; nothing is allocated up to eight entries, and fewer than
  // two elements are moved per append.
  method FillFresh<T(0)>(xs: seq<T>) returns (list: List<T>)
    ensures fresh(list) && fresh(list.inline) && (list.heap != null ==> fresh(list.heap))
    ensures list.Valid() && list.Contents() == xs
    ensures |xs| <= INLINE ==> list.heapCapacity == 0 && list.copies == 0
    ensures xs != [] ==> list.copies < 2 * |xs| && (list.UsesHeap() <==> |xs| > INLINE)
    ensures xs == [] ==> list.UsesHeap()
  {
    list := new List<T>();
    for i := 0 to |xs|
      invariant list.Grown() && list.Contents() == xs[..i] && list.size == i
      invariant i == 0 ==> list.data == Null && list.heap == null
      invariant 0 < i ==> list.data != Null
      invariant fresh(list) && fresh(list.inline) && (list.heap != null ==> fresh(list.heap))
    {
      list.Append(xs[i]);
      assert xs[..i+1] == xs[..i] + [xs[i]];
    }
    assert xs[..|xs|] == xs;
  }

  // The exception is real: clear a spilled list and append nine entries again.
  method ReuseLosesEntries() returns (list: List<int>)
    ensures list.Valid() && list.size == INLINE + 1
    ensures list.Contents() == [0, 0, 0, 0, 0, 0, 0, 0, 1]
  {
    list := FillFresh(seq(INLINE + 1, _ => 0));
    ghost var block := list.heap[..INLINE];
    assert list.Contents()[..INLINE] == block;
    list.Clear();
    for i := 0 to INLINE
      invariant list.Valid() && list.size == i && list.heapCapacity > INLINE && list.heap[..INLINE] == block
      invariant list.data == (if i == 0 then Null else Inline)
      invariant fresh(list) && fresh(list.inline) && fresh(list.heap)
    {
      list.Append(1);
    }
    list.Append(1);
  }
}
