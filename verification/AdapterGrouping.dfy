/**
 The sort_by | chunk_by pipeline that groups resolved addresses by adapter id.
 The library sort is a foreign call: any reordering of its input that is sorted by key.
 */
module AdapterGrouping {

  function Flatten<T>(chunks: seq<seq<T>>): seq<T> {
    if chunks == [] then [] else chunks[0] + Flatten(chunks[1..])
  }

  lemma {:induction false} FlattenSnoc<T>(chunks: seq<seq<T>>, c: seq<T>)
    ensures Flatten(chunks + [c]) == Flatten(chunks) + c
  {
    if chunks == [] {
      assert chunks + [c] == [c] && Flatten([c]) == c + Flatten([]);
    } else {
      assert (chunks + [c])[1..] == chunks[1..] + [c];
      FlattenSnoc(chunks[1..], c);
    }
  }

  predicate Linked<T>(c: seq<T>, pred: (T, T) -> bool) {
    forall k :: 0 < k < |c| ==> pred(c[k-1], c[k])
  }

  // Chunks c-1 and c meet at unrelated neighbours.
  predicate CutAt<T>(chunks: seq<seq<T>>, c: nat, pred: (T, T) -> bool)
    requires 0 < c < |chunks| && chunks[c-1] != [] && chunks[c] != []
  {
    !pred(chunks[c-1][|chunks[c-1]|-1], chunks[c][0])
  }

  // Non-empty runs of related neighbours, cut wherever neighbours are not related.
  predicate Chunking<T>(chunks: seq<seq<T>>, pred: (T, T) -> bool) {
    && (forall c :: 0 <= c < |chunks| ==> chunks[c] != [] && Linked(chunks[c], pred))
    && (forall c {:trigger CutAt(chunks, c, pred)} :: 0 < c < |chunks| ==> CutAt(chunks, c, pred))
  }

  method ChunkBy<T>(items: seq<T>, pred: (T, T) -> bool) returns (chunks: seq<seq<T>>)
    ensures Flatten(chunks) == items && Chunking(chunks, pred)
  {
    chunks := [];
    if items == [] { return; }
    var current := [items[0]];
    var previous := 0;
    var it := 1;
    while it != |items|
      invariant 1 <= it <= |items| && previous == it - 1
      invariant current != [] && current[|current|-1] == items[previous]
      invariant Chunking(chunks + [current], pred)
      invariant Flatten(chunks) + current == items[..it]
    {
      assert items[..it+1] == items[..it] + [items[it]];
      if pred(items[previous], items[it]) {
        Extended(chunks, current, items[it], pred);
        current := current + [items[it]];
      } else {
        FlattenSnoc(chunks, current);
        Opened(chunks, current, items[it], pred);
        chunks := chunks + [current];
        current := [items[it]];
      }
      previous := it;
      it := it + 1;
    }
    FlattenSnoc(chunks, current);
    chunks := chunks + [current];
    assert items[..it] == items;
  }

  lemma Extended<T>(chunks: seq<seq<T>>, current: seq<T>, x: T, pred: (T, T) -> bool)
    requires current != [] && Chunking(chunks + [current], pred) && pred(current[|current|-1], x)
    ensures Chunking(chunks + [current + [x]], pred)
  {
    var a, b := chunks + [current], chunks + [current + [x]];
    assert a[|chunks|] == current && b[|chunks|] == current + [x];
    assert forall c :: 0 <= c < |chunks| ==> a[c] == b[c];
    assert Linked(a[|chunks|], pred);
    forall c | 0 < c < |b| ensures CutAt(b, c, pred) { assert CutAt(a, c, pred); }
  }

  lemma Opened<T>(chunks: seq<seq<T>>, current: seq<T>, x: T, pred: (T, T) -> bool)
    requires current != [] && Chunking(chunks + [current], pred) && !pred(current[|current|-1], x)
    ensures Chunking(chunks + [current] + [[x]], pred)
  {
    var a, b := chunks + [current], chunks + [current] + [[x]];
    assert forall c :: 0 <= c < |a| ==> a[c] == b[c];
    assert a[|chunks|] == current && b[|a|] == [x];
    forall c | 0 < c < |b| ensures CutAt(b, c, pred) { if c < |a| { assert CutAt(a, c, pred); } }
  }

  // ---- the chunking is determined by the items ----

  lemma {:induction false} FlattenEmpty<T>(chunks: seq<seq<T>>)
    requires forall c :: 0 <= c < |chunks| ==> chunks[c] != []
    ensures Flatten(chunks) == [] <==> chunks == []
  {
  }

  lemma Prefix<T>(a: seq<T>, b: seq<T>, f: seq<T>)
    requires f == a + b
    ensures |a| <= |f| && f[..|a|] == a && f[|a|..] == b
  {
  }

  lemma CutAfterFirst<T>(a: seq<seq<T>>, pred: (T, T) -> bool)
    requires a != [] && Chunking(a, pred)
    ensures |a[0]| > 0
    ensures |Flatten(a[1..])| > 0 ==> !pred(a[0][|a[0]|-1], Flatten(a[1..])[0])
  {
    if |a| > 1 {
      assert CutAt(a, 1, pred);
      Prefix(a[1], Flatten(a[1..][1..]), Flatten(a[1..]));
    }
  }

  // The items are linked inside the first chunk and not at its end.
  lemma FirstChunk<T>(a: seq<seq<T>>, pred: (T, T) -> bool)
    requires a != [] && Chunking(a, pred)
    ensures var n, f := |a[0]|, Flatten(a);
      && 0 < n <= |f| && f[..n] == a[0] && f[n..] == Flatten(a[1..])
      && (forall k :: 0 < k < n ==> pred(f[k-1], f[k]))
      && (n < |f| ==> !pred(f[n-1], f[n]))
  {
    CutAfterFirst(a, pred);
    assert Linked(a[0], pred);
    Prefix(a[0], Flatten(a[1..]), Flatten(a));
  }

  lemma {:induction false} ChunkingUnique<T>(a: seq<seq<T>>, b: seq<seq<T>>, pred: (T, T) -> bool)
    requires Chunking(a, pred) && Chunking(b, pred) && Flatten(a) == Flatten(b)
    ensures a == b
    decreases |a|
  {
    FlattenEmpty(a);
    FlattenEmpty(b);
    if a != [] {
      FirstChunk(a, pred);
      FirstChunk(b, pred);
      Rest(a, pred);
      Rest(b, pred);
      ChunkingUnique(a[1..], b[1..], pred);
      assert a == [a[0]] + a[1..] && b == [b[0]] + b[1..];
    }
  }

  lemma Rest<T>(a: seq<seq<T>>, pred: (T, T) -> bool)
    requires a != [] && Chunking(a, pred)
    ensures Chunking(a[1..], pred)
  {
    assert forall c :: 0 <= c < |a| - 1 ==> a[1..][c] == a[c + 1];
    forall c | 0 < c < |a| - 1 ensures CutAt(a[1..], c, pred) { assert CutAt(a, c + 1, pred); }
  }

  // ---- grouping by key ----

  predicate SortedBy<T>(s: seq<T>, key: T -> nat) {
    forall i, j :: 0 <= i < j < |s| ==> key(s[i]) <= key(s[j])
  }

  function SameKey<T>(key: T -> nat): (T, T) -> bool {
    (x: T, y: T) => key(x) == key(y)
  }

  lemma {:induction false} LinkedSameKey<T>(c: seq<T>, key: T -> nat, i: nat, j: nat)
    requires Linked(c, SameKey(key)) && i <= j < |c|
    ensures key(c[i]) == key(c[j])
    decreases j - i
  {
    if i < j {
      LinkedSameKey(c, key, i, j - 1);
      assert SameKey(key)(c[j-1], c[j]);
    }
  }

  // Across chunks of a sorted list the key strictly increases.
  lemma {:induction false} KeysIncrease<T>(chunks: seq<seq<T>>, key: T -> nat, c: nat, i: nat)
    requires Chunking(chunks, SameKey(key)) && SortedBy(Flatten(chunks), key)
    requires 0 < c < |chunks| && i < |chunks[c]|
    ensures key(chunks[0][0]) < key(chunks[c][i])
    decreases |chunks|
  {
    var f := Flatten(chunks);
    var rest := chunks[1..];
    assert f == chunks[0] + Flatten(rest);
    Rest(chunks, SameKey(key));
    assert rest[0] == chunks[1] && chunks[1] != [];
    assert Flatten(rest) == rest[0] + Flatten(rest[1..]);
    var last := |chunks[0]| - 1;
    LinkedSameKey(chunks[0], key, 0, last);
    assert CutAt(chunks, 1, SameKey(key));
    assert f[last] == chunks[0][last] && f[last + 1] == chunks[1][0];
    assert key(chunks[0][0]) < key(chunks[1][0]);
    if c == 1 {
      LinkedSameKey(chunks[1], key, 0, i);
    } else {
      assert forall j :: 0 <= j < |Flatten(rest)| ==> Flatten(rest)[j] == f[last + 1 + j];
      KeysIncrease(rest, key, c - 1, i);
    }
  }

  lemma {:induction false} DistinctChunksDistinctKeys<T>(chunks: seq<seq<T>>, key: T -> nat, a: nat, i: nat, b: nat,
                                                         j: nat)
    requires Chunking(chunks, SameKey(key)) && SortedBy(Flatten(chunks), key)
    requires a < b < |chunks| && i < |chunks[a]| && j < |chunks[b]|
    ensures key(chunks[a][i]) < key(chunks[b][j])
    decreases |chunks|
  {
    if a == 0 {
      LinkedSameKey(chunks[0], key, 0, i);
      KeysIncrease(chunks, key, b, j);
    } else {
      var f, rest := Flatten(chunks), chunks[1..];
      assert f == chunks[0] + Flatten(rest);
      assert forall k :: 0 <= k < |Flatten(rest)| ==> Flatten(rest)[k] == f[|chunks[0]| + k];
      Rest(chunks, SameKey(key));
      DistinctChunksDistinctKeys(rest, key, a - 1, i, b - 1, j);
    }
  }

  // Sorting by key and chunking by key equality partitions any input: the chunks hold
  // exactly the input's elements, none is empty, and two elements share a chunk if and
  // only if their keys are equal.
  lemma GroupsByKey<T>(items: seq<T>, sorted: seq<T>, chunks: seq<seq<T>>, key: T -> nat)
    requires multiset(sorted) == multiset(items) && SortedBy(sorted, key)
    requires Flatten(chunks) == sorted && Chunking(chunks, SameKey(key))
    ensures multiset(Flatten(chunks)) == multiset(items)
    ensures forall c :: 0 <= c < |chunks| ==> chunks[c] != []
    ensures forall a, i, b, j ::
      0 <= a < |chunks| && 0 <= i < |chunks[a]| && 0 <= b < |chunks| && 0 <= j < |chunks[b]| ==>
        (key(chunks[a][i]) == key(chunks[b][j]) <==> a == b)
  {
    forall a, i, b, j | 0 <= a < |chunks| && 0 <= i < |chunks[a]| && 0 <= b < |chunks| && 0 <= j < |chunks[b]|
      ensures key(chunks[a][i]) == key(chunks[b][j]) <==> a == b
    {
      if a < b {
        DistinctChunksDistinctKeys(chunks, key, a, i, b, j);
      } else if b < a {
        DistinctChunksDistinctKeys(chunks, key, b, j, a, i);
      } else {
        LinkedSameKey(chunks[a], key, 0, i);
        LinkedSameKey(chunks[a], key, 0, j);
      }
    }
  }
}
