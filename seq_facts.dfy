/** Small facts about slicing and concatenating sequences, stated once
    for any element type so that the proofs about the page's data can use
    them without unfolding sequence equality element by element. */
module SeqFacts {

  lemma TakeSnoc<T>(s: seq<T>, i: int)
    requires 0 <= i < |s|
    ensures s[..i + 1] == s[..i] + [s[i]]
  {
  }

  lemma TakeAll<T>(s: seq<T>)
    ensures s[..|s|] == s
  {
  }

  lemma TakeDrop<T>(s: seq<T>, i: int)
    requires 0 <= i <= |s|
    ensures s[..i] + s[i..] == s
  {
  }

  lemma DropHead<T>(s: seq<T>, i: int)
    requires 0 <= i < |s|
    ensures s[i..] != [] && s[i..][0] == s[i] && s[i..][1..] == s[i + 1..]
  {
  }

  lemma SnocAssoc<T>(a: seq<T>, b: seq<T>, x: T)
    ensures a + b + [x] == a + (b + [x])
  {
  }

  lemma ConsAssoc<T>(a: seq<T>, b: seq<T>, c: seq<T>)
    ensures a + b + c == a + (b + c)
  {
  }

  lemma ConsTail<T>(a: seq<T>, b: seq<T>)
    requires a != []
    ensures (a + b)[0] == a[0] && (a + b)[1..] == a[1..] + b
  {
  }

  lemma EmptyLeft<T>(a: seq<T>, b: seq<T>)
    requires a == []
    ensures a + b == b
  {
  }

  lemma SingletonTail<T>(x: T)
    ensures [x][1..] == []
  {
  }

  lemma TakeOfInit<T>(s: seq<T>, n: int)
    requires 0 <= n <= |s|
    ensures forall i :: 0 <= i < n ==> s[..n][i] == s[i]
  {
  }
}
