/** What the pinned-buffer pool's sequential class and its concurrent model share. */
module PoolSpec {
  /** A host buffer together with its registration handle; 0 stands for a null pointer or handle. */
  datatype CachedBuffer = CachedBuffer(data: nat, capacity: nat, mr: nat)

  predicate Sorted(classes: seq<nat>) {
    forall i, j :: 0 <= i < j < |classes| ==> classes[i] <= classes[j]
  }

  /** The first class that is large enough, or the number of classes when none is. */
  function PickClass(classes: seq<nat>, size: nat): (r: nat)
    ensures r <= |classes|
    ensures r < |classes| ==> classes[r] >= size
    ensures forall i :: 0 <= i < r ==> classes[i] < size
  {
    if |classes| == 0 || classes[0] >= size then 0 else 1 + PickClass(classes[1..], size)
  }

  /** The capacity of the buffer that a request of this size gets. */
  function CapacityFor(classes: seq<nat>, size: nat): (c: nat)
    ensures c >= size
  {
    var r := PickClass(classes, size);
    if r < |classes| then classes[r] else size
  }

  /** Of a sorted class list the pool picks the least capacity that fits, or exactly the size. */
  lemma PickIsLeast(classes: seq<nat>, size: nat)
    requires Sorted(classes)
    ensures CapacityFor(classes, size) in classes || CapacityFor(classes, size) == size
    ensures forall c :: c in classes && c >= size ==> CapacityFor(classes, size) <= c
    ensures (exists c :: c in classes && c >= size) ==> CapacityFor(classes, size) in classes
  {
    var r := PickClass(classes, size);
    forall c | c in classes && c >= size
      ensures r < |classes| && classes[r] <= c
    {
      var i :| 0 <= i < |classes| && classes[i] == c;
      assert r <= i;
    }
  }

  function TotalLength<T>(lists: seq<seq<T>>): nat {
    if lists == [] then 0 else TotalLength(lists[..|lists| - 1]) + |lists[|lists| - 1]|
  }

  lemma {:induction false} TotalUpdate<T>(lists: seq<seq<T>>, i: nat, l: seq<T>)
    requires i < |lists|
    ensures TotalLength(lists[i := l]) == TotalLength(lists) - |lists[i]| + |l|
  {
    var n := |lists| - 1;
    if i < n {
      assert lists[i := l][..n] == lists[..n][i := l];
      TotalUpdate(lists[..n], i, l);
    } else {
      assert lists[i := l][..n] == lists[..n];
    }
  }

  lemma {:induction false} TotalZero<T>(lists: seq<seq<T>>)
    ensures TotalLength(lists) == 0 <==> forall i :: 0 <= i < |lists| ==> lists[i] == []
  {
    if lists != [] {
      TotalZero(lists[..|lists| - 1]);
    }
  }

  function Insert(x: nat, s: seq<nat>): (r: seq<nat>) {
    if s == [] || x <= s[0] then [x] + s else [s[0]] + Insert(x, s[1..])
  }

  lemma {:induction false} InsertPermutes(x: nat, s: seq<nat>)
    ensures multiset(Insert(x, s)) == multiset(s) + multiset{x}
  {
    if !(s == [] || x <= s[0]) {
      InsertPermutes(x, s[1..]);
      assert s == [s[0]] + s[1..];
    }
  }

  lemma {:induction false} InsertSorts(x: nat, s: seq<nat>)
    requires Sorted(s)
    ensures Sorted(Insert(x, s))
    ensures s != [] ==> Insert(x, s)[0] == if x <= s[0] then x else s[0]
  {
    if !(s == [] || x <= s[0]) {
      InsertSorts(x, s[1..]);
      Prepend(s[0], Insert(x, s[1..]));
    }
  }

  lemma Prepend(x: nat, s: seq<nat>)
    requires Sorted(s) && (s != [] ==> x <= s[0])
    ensures Sorted([x] + s)
  {
  }

  /** What std::sort produces. */
  function SortAscending(s: seq<nat>): (r: seq<nat>) {
    if s == [] then [] else Insert(s[0], SortAscending(s[1..]))
  }

  lemma {:induction false} SortIsSorted(s: seq<nat>)
    ensures Sorted(SortAscending(s))
    ensures multiset(SortAscending(s)) == multiset(s)
  {
    if s != [] {
      SortIsSorted(s[1..]);
      InsertSorts(s[0], SortAscending(s[1..]));
      InsertPermutes(s[0], SortAscending(s[1..]));
      assert s == [s[0]] + s[1..];
    }
  }
}
