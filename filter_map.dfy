/** Mapping a partial function over a list and keeping only the defined
    results, in order: the shape of a loop that appends to a list only when
    a per-item check passes. The facts are proved once for any function so
    that the per-item logic does not enter the proofs about the list. */
module FilterMaps {
  import opened Wrappers
  import opened SeqFacts

  /** What one item contributes: its image, or nothing. */
  function Emit<T, U>(f: T -> Option<U>, x: T): (ys: seq<U>)
    ensures |ys| <= 1
  {
    match f(x)
    case None => []
    case Some(y) => [y]
  }

  /** The defined images of `xs` under `f`, in the order of `xs`. */
  function FilterMap<T, U>(f: T -> Option<U>, xs: seq<T>): (ys: seq<U>)
    ensures |ys| <= |xs|
  {
    if xs == [] then [] else Emit(f, xs[0]) + FilterMap(f, xs[1..])
  }

  lemma FilterMapSingleton<T, U>(f: T -> Option<U>, x: T)
    ensures FilterMap(f, [x]) == Emit(f, x)
  {
    SingletonTail(x);
  }

  /** Filter-mapping a concatenation gives the concatenated results. */
  lemma {:induction false} FilterMapAppend<T, U>(f: T -> Option<U>, a: seq<T>, b: seq<T>)
    ensures FilterMap(f, a + b) == FilterMap(f, a) + FilterMap(f, b)
  {
    if a == [] {
      EmptyLeft(a, b);
    } else {
      ConsTail(a, b);
      FilterMapAppend(f, a[1..], b);
    }
  }

  /** The positions of the items that have an image, in increasing order. */
  ghost function KeptIndices<T, U>(f: T -> Option<U>, xs: seq<T>): seq<int>
    decreases |xs|
  {
    if xs == [] then []
    else
      var n := |xs| - 1;
      KeptIndices(f, xs[..n]) + (if f(xs[n]).Some? then [n] else [])
  }

  /** KeptIndices lists, strictly increasing, exactly the positions whose
      item has an image. */
  lemma {:induction false} KeptIndicesExact<T, U>(f: T -> Option<U>, xs: seq<T>)
    ensures forall k :: 0 <= k < |KeptIndices(f, xs)| ==> 0 <= KeptIndices(f, xs)[k] < |xs|
    ensures forall k, l :: 0 <= k < l < |KeptIndices(f, xs)| ==> KeptIndices(f, xs)[k] < KeptIndices(f, xs)[l]
    ensures forall i :: 0 <= i < |xs| ==> (i in KeptIndices(f, xs) <==> f(xs[i]).Some?)
    decreases |xs|
  {
    if xs != [] {
      var n := |xs| - 1;
      KeptIndicesExact(f, xs[..n]);
      TakeOfInit(xs, n);
    }
  }

  /** The k-th result is the image of the k-th kept item. */
  lemma {:induction false} FilterMapIsImageOfKept<T, U>(f: T -> Option<U>, xs: seq<T>)
    ensures |FilterMap(f, xs)| == |KeptIndices(f, xs)|
    ensures forall k :: 0 <= k < |FilterMap(f, xs)| ==>
      0 <= KeptIndices(f, xs)[k] < |xs| && f(xs[KeptIndices(f, xs)[k]]) == Some(FilterMap(f, xs)[k])
    decreases |xs|
  {
    if xs != [] {
      var n := |xs| - 1;
      var init, last := xs[..n], xs[n];
      var ys0, ks0 := FilterMap(f, init), KeptIndices(f, init);
      FilterMapIsImageOfKept(f, init);
      KeptIndicesExact(f, init);
      TakeOfInit(xs, n);
      TakeSnoc(xs, n);
      TakeAll(xs);
      FilterMapAppend(f, init, [last]);
      FilterMapSingleton(f, last);
      var ys, ks := FilterMap(f, xs), KeptIndices(f, xs);
      assert ys == ys0 + Emit(f, last);
      assert ks == ks0 + (if f(last).Some? then [n] else []);
      forall k | 0 <= k < |ys|
        ensures 0 <= ks[k] < |xs| && f(xs[ks[k]]) == Some(ys[k])
      {
        if k < |ys0| {
          assert ys[k] == ys0[k] && ks[k] == ks0[k];
          assert xs[ks0[k]] == init[ks0[k]];
        } else {
          assert ys[k] == f(last).value && ks[k] == n;
        }
      }
    }
  }

  /** A value is a result iff some item maps to it. */
  lemma FilterMapMembership<T, U>(f: T -> Option<U>, xs: seq<T>, y: U)
    ensures y in FilterMap(f, xs) <==> exists i :: 0 <= i < |xs| && f(xs[i]) == Some(y)
  {
    var ys := FilterMap(f, xs);
    FilterMapIsImageOfKept(f, xs);
    KeptIndicesExact(f, xs);
    var ks := KeptIndices(f, xs);
    if y in ys {
      var k :| 0 <= k < |ys| && ys[k] == y;
      var i := ks[k];
      assert 0 <= i < |xs| && f(xs[i]) == Some(y);
    }
    if exists i :: 0 <= i < |xs| && f(xs[i]) == Some(y) {
      var i :| 0 <= i < |xs| && f(xs[i]) == Some(y);
      assert i in ks;
      var k :| 0 <= k < |ks| && ks[k] == i;
      assert ys[k] == y;
    }
  }

  /** There is one result per item exactly when every item has an image. */
  lemma {:induction false} FilterMapKeepsAllIff<T, U>(f: T -> Option<U>, xs: seq<T>)
    ensures |FilterMap(f, xs)| == |xs| <==> forall i :: 0 <= i < |xs| ==> f(xs[i]).Some?
  {
    if xs != [] {
      FilterMapKeepsAllIff(f, xs[1..]);
      assert forall i :: 1 <= i < |xs| ==> xs[1..][i - 1] == xs[i];
    }
  }

  /** Splitting the input at any position splits the result accordingly. */
  lemma FilterMapSplit<T, U>(f: T -> Option<U>, xs: seq<T>, i: int)
    requires 0 <= i <= |xs|
    ensures FilterMap(f, xs) == FilterMap(f, xs[..i]) + FilterMap(f, xs[i..])
  {
    TakeDrop(xs, i);
    FilterMapAppend(f, xs[..i], xs[i..]);
  }

  /** A suffix that starts with an item without an image gives the same
      result as the suffix after it. */
  lemma FilterMapSkipsHead<T, U>(f: T -> Option<U>, xs: seq<T>, i: int)
    requires 0 <= i < |xs| && f(xs[i]).None?
    ensures FilterMap(f, xs[i..]) == FilterMap(f, xs[i + 1..])
  {
    DropHead(xs, i);
    assert Emit(f, xs[i]) == [];
  }

  /** An item without an image can be removed without changing the result. */
  lemma FilterMapDropped<T, U>(f: T -> Option<U>, xs: seq<T>, i: int)
    requires 0 <= i < |xs| && f(xs[i]).None?
    ensures FilterMap(f, xs[..i] + xs[i + 1..]) == FilterMap(f, xs)
  {
    FilterMapAppend(f, xs[..i], xs[i + 1..]);
    FilterMapSkipsHead(f, xs, i);
    FilterMapSplit(f, xs, i);
  }

  /** The image of every item, in order. */
  function MapSeq<T, U>(f: T -> U, xs: seq<T>): (ys: seq<U>)
    ensures |ys| == |xs|
  {
    if xs == [] then [] else [f(xs[0])] + MapSeq(f, xs[1..])
  }

  lemma MapSeqSingleton<T, U>(f: T -> U, x: T)
    ensures MapSeq(f, [x]) == [f(x)]
  {
    SingletonTail(x);
  }

  /** Mapping a concatenation gives the concatenated images. */
  lemma {:induction false} MapSeqAppend<T, U>(f: T -> U, a: seq<T>, b: seq<T>)
    ensures MapSeq(f, a + b) == MapSeq(f, a) + MapSeq(f, b)
  {
    if a == [] {
      EmptyLeft(a, b);
    } else {
      ConsTail(a, b);
      MapSeqAppend(f, a[1..], b);
    }
  }

  /** Reading back what an encoder wrote recovers every item, in order. */
  lemma {:induction false} FilterMapInvertsMap<T, U>(g: U -> Option<T>, f: T -> U, xs: seq<T>)
    requires forall x :: g(f(x)) == Some(x)
    ensures FilterMap(g, MapSeq(f, xs)) == xs
  {
    if xs != [] {
      var ys := MapSeq(f, xs);
      assert ys[0] == f(xs[0]) && ys[1..] == MapSeq(f, xs[1..]);
      FilterMapInvertsMap(g, f, xs[1..]);
      assert Emit(g, ys[0]) == [xs[0]];
      ConsTail([xs[0]], xs[1..]);
    }
  }

  /** A reader that recognises nothing an encoder writes reads nothing back. */
  lemma {:induction false} FilterMapIgnoresMap<T, U, V>(g: U -> Option<V>, f: T -> U, xs: seq<T>)
    requires forall x :: g(f(x)).None?
    ensures FilterMap(g, MapSeq(f, xs)) == []
  {
    if xs != [] {
      var ys := MapSeq(f, xs);
      assert ys[0] == f(xs[0]) && ys[1..] == MapSeq(f, xs[1..]);
      FilterMapIgnoresMap(g, f, xs[1..]);
      assert Emit(g, ys[0]) == [];
    }
  }
}
