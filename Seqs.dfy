/** Sequence helpers shared by the whole model: the JavaScript array
    operations `filter`, `map` and the "toggle membership" idiom that the
    planner's forms use for tag selection. */
module Seqs {

  /** `s.filter(p)`: the elements of `s` that satisfy `p`, in their order. */
  function Filter<T>(p: T -> bool, s: seq<T>): (r: seq<T>)
    ensures |r| <= |s|
    ensures forall x :: x in r ==> x in s && p(x)
    ensures forall x :: x in s && p(x) ==> x in r
    ensures forall i :: 0 <= i < |r| ==> p(r[i])
  {
    if s == [] then []
    else if p(s[0]) then [s[0]] + Filter(p, s[1..])
    else Filter(p, s[1..])
  }

  /** `s.map(f)`. */
  function MapSeq<T, U>(f: T -> U, s: seq<T>): (r: seq<U>)
    ensures |r| == |s|
    ensures forall i :: 0 <= i < |s| ==> r[i] == f(s[i])
  {
    seq(|s|, i requires 0 <= i < |s| => f(s[i]))
  }

  lemma MapSeqMember<T, U>(f: T -> U, s: seq<T>, y: U)
    ensures y in MapSeq(f, s) <==> exists x :: x in s && y == f(x)
  {
    var r := MapSeq(f, s);
    if y in r {
      var i :| 0 <= i < |r| && r[i] == y;
      assert s[i] in s && y == f(s[i]);
    }
    if exists x :: x in s && y == f(x) {
      var x :| x in s && y == f(x);
      var i :| 0 <= i < |s| && s[i] == x;
      assert r[i] == y;
    }
  }

  /** Filtering distributes over concatenation: filtering keeps the order. */
  lemma {:induction false} FilterConcat<T>(p: T -> bool, a: seq<T>, b: seq<T>)
    ensures Filter(p, a + b) == Filter(p, a) + Filter(p, b)
  {
    if a == [] {
      assert a + b == b;
    } else {
      assert (a + b)[0] == a[0];
      assert (a + b)[1..] == a[1..] + b;
      FilterConcat(p, a[1..], b);
    }
  }

  /** Filtering with a predicate every element meets changes nothing. */
  lemma {:induction false} FilterKeepsAll<T>(p: T -> bool, s: seq<T>)
    requires forall x :: x in s ==> p(x)
    ensures Filter(p, s) == s
  {
    if s != [] {
      assert forall x :: x in s[1..] ==> x in s;
      FilterKeepsAll(p, s[1..]);
    }
  }

  /** The head of a non-empty filter is the first element that satisfies
      the predicate. */
  lemma {:induction false} FilterHead<T>(p: T -> bool, s: seq<T>)
    requires Filter(p, s) != []
    ensures exists i :: 0 <= i < |s| && p(s[i]) && Filter(p, s)[0] == s[i] &&
                        forall j :: 0 <= j < i ==> !p(s[j])
  {
    if p(s[0]) {
      assert Filter(p, s)[0] == s[0];
    } else {
      FilterHead(p, s[1..]);
      var k :| 0 <= k < |s[1..]| && p(s[1..][k]) && Filter(p, s[1..])[0] == s[1..][k] &&
               forall j :: 0 <= j < k ==> !p(s[1..][j]);
      assert forall j :: 0 <= j < k + 1 ==> !p(s[j]) by {
        forall j | 0 <= j < k + 1 ensures !p(s[j]) {
          if j > 0 { assert s[j] == s[1..][j - 1]; }
        }
      }
      assert p(s[k + 1]) && Filter(p, s)[0] == s[k + 1];
    }
  }

  /** `prev.includes(x) ? prev.filter(y => y !== x) : [...prev, x]`. */
  function Toggle<T(==)>(prev: seq<T>, x: T): (r: seq<T>)
    ensures x in r <==> x !in prev
    ensures x !in prev ==> r == prev + [x]
    ensures forall y :: y in r && y != x ==> y in prev
    ensures forall y :: y in prev && y != x ==> y in r
  {
    if x in prev then Filter(y => y != x, prev) else prev + [x]
  }

  /** Dropping every `x` removes exactly the copies of `x`. */
  lemma {:induction false} FilterOutMultiset<T>(s: seq<T>, x: T)
    ensures multiset(Filter(y => y != x, s)) == multiset(s)[x := 0]
  {
    if s != [] {
      FilterOutMultiset(s[1..], x);
      assert s == [s[0]] + s[1..];
    }
  }

  /** Deselecting removes the item and nothing else: the remaining items
      are the old ones with every copy of the item gone, ... */
  lemma ToggleOffMultiset<T>(prev: seq<T>, x: T)
    requires x in prev
    ensures multiset(Toggle(prev, x)) == multiset(prev)[x := 0]
  {
    FilterOutMultiset(prev, x);
  }

  /** ... and they keep their order around the place the item held. */
  lemma ToggleOffOrder<T>(a: seq<T>, x: T, b: seq<T>)
    requires x !in a && x !in b
    ensures Toggle(a + [x] + b, x) == a + b
  {
    var p := (y: T) => y != x;
    var s := a + [x] + b;
    assert s[|a|] == x;
    assert Toggle(s, x) == Filter(p, s);
    FilterConcat(p, a + [x], b);
    FilterConcat(p, a, [x]);
    FilterKeepsAll(p, a);
    FilterKeepsAll(p, b);
    assert Filter(p, [x]) == [];
    assert Filter(p, a + [x]) == a;
  }

  /** Selecting an absent item and then deselecting it restores the list. */
  lemma ToggleTwiceRestores<T>(prev: seq<T>, x: T)
    requires x !in prev
    ensures Toggle(Toggle(prev, x), x) == prev
  {
    FilterConcat(y => y != x, prev, [x]);
    FilterKeepsAll(y => y != x, prev);
  }
}
