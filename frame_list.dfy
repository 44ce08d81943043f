/**
 * The std::list operations the registries rely on, stated over sequences:
 * push_back is `s + [x]`, list::remove is Without, and walking a list with a
 * reverse_iterator visits Reversed(s).
 */
module FrameLists {

  /** The list left by std::list::remove(x): every element equal to x is erased. */
  function Without<T(==)>(s: seq<T>, x: T): (r: seq<T>)
    ensures |r| <= |s|
  {
    if s == [] then []
    else if s[0] == x then Without(s[1..], x)
    else [s[0]] + Without(s[1..], x)
  }

  /** The order in which a reverse_iterator walk visits the elements of s. */
  function Reversed<T>(s: seq<T>): (r: seq<T>)
    ensures |r| == |s|
  {
    if s == [] then [] else Reversed(s[1..]) + [s[0]]
  }

  /** Removing x erases every copy of x and keeps every other element as often as it was there. */
  lemma {:induction false} WithoutCounts<T>(s: seq<T>, x: T)
    ensures multiset(Without(s, x)) == multiset(s)[x := 0]
    ensures x !in Without(s, x)
    ensures forall y :: y != x ==> (y in Without(s, x) <==> y in s)
  {
    if s != [] {
      WithoutCounts(s[1..], x);
      assert s == [s[0]] + s[1..];
      assert multiset(s) == multiset([s[0]]) + multiset(s[1..]);
    }
    assert x !in multiset(Without(s, x));
    forall y | y != x
      ensures y in Without(s, x) <==> y in s
    {
      assert y in multiset(Without(s, x)) <==> y in multiset(s);
    }
  }

  /** Removal works piecewise, so the elements that stay keep their relative order. */
  lemma {:induction false} WithoutAppend<T>(a: seq<T>, b: seq<T>, x: T)
    ensures Without(a + b, x) == Without(a, x) + Without(b, x)
  {
    if a != [] {
      assert (a + b)[1..] == a[1..] + b;
      WithoutAppend(a[1..], b, x);
    } else {
      assert a + b == b;
    }
  }

  /** Removing an element that is not in the list leaves the list as it was. */
  lemma {:induction false} WithoutAbsent<T>(s: seq<T>, x: T)
    requires x !in s
    ensures Without(s, x) == s
  {
    if s != [] {
      assert x !in s[1..];
      WithoutAbsent(s[1..], x);
      assert [s[0]] + s[1..] == s;
    }
  }

  /** Registering a new element and then unregistering it restores the list. */
  lemma RegisterThenUnregister<T>(s: seq<T>, x: T)
    requires x !in s
    ensures Without(s + [x], x) == s
  {
    WithoutAppend(s, [x], x);
    WithoutAbsent(s, x);
    assert Without([x], x) == [];
  }

  /** The k-th element visited by a reverse walk is the k-th from the end. */
  lemma {:induction false} ReversedAt<T>(s: seq<T>, k: nat)
    requires k < |s|
    ensures Reversed(s)[k] == s[|s| - 1 - k]
  {
    if k < |s| - 1 {
      ReversedAt(s[1..], k);
    }
  }

  /** A reverse walk visits every element exactly as often as it is in the list. */
  lemma {:induction false} ReversedCounts<T>(s: seq<T>)
    ensures multiset(Reversed(s)) == multiset(s)
  {
    if s != [] {
      ReversedCounts(s[1..]);
      assert s == [s[0]] + s[1..];
    }
  }

  /** Extending the walked part by one element on the left extends the reverse walk on the right. */
  lemma ReversedCons<T>(s: seq<T>, i: nat)
    requires 0 < i <= |s|
    ensures Reversed(s[i - 1..]) == Reversed(s[i..]) + [s[i - 1]]
  {
    assert s[i - 1..][1..] == s[i..];
  }
}
