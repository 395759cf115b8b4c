/** The JavaScript array operations the gallery and services pages use on
    their fixed lists: `filter` by a category, the `'All'` shortcut around it,
    and `findIndex`. */
module ArrayOps {

  /** The category button that shows the whole list. */
  const All: string := "All"

  /** `xs.filter(x => category(x) === c)`. */
  function WithCategory<T(!new)>(xs: seq<T>, category: T -> string, c: string): (r: seq<T>)
    ensures |r| <= |xs|
    ensures forall x :: x in r <==> x in xs && category(x) == c
  {
    if xs == [] then []
    else (if category(xs[0]) == c then [xs[0]] else []) + WithCategory(xs[1..], category, c)
  }

  /** `selected === 'All' ? xs : xs.filter(x => category(x) === selected)`. */
  function ByCategory<T(!new)>(xs: seq<T>, category: T -> string, selected: string): (r: seq<T>)
    ensures |r| <= |xs|
    ensures selected == All ==> r == xs
  {
    if selected == All then xs else WithCategory(xs, category, selected)
  }

  /** The shown list holds exactly the elements of the selected category, or
      every element for `'All'`. */
  lemma ByCategoryMembers<T(!new)>(xs: seq<T>, category: T -> string, selected: string, x: T)
    ensures x in ByCategory(xs, category, selected) <==> x in xs && (selected == All || category(x) == selected)
  {
  }

  /** r is xs with some elements dropped and the rest kept in order. */
  predicate IsSubsequence<T(==)>(r: seq<T>, xs: seq<T>)
    decreases |xs|
  {
    if r == [] then true
    else if xs == [] then false
    else if r[0] == xs[0] then IsSubsequence(r[1..], xs[1..])
    else IsSubsequence(r, xs[1..])
  }

  /** Filtering a list with a known first element. */
  lemma WithCategoryCons<T(!new)>(x: T, xs: seq<T>, category: T -> string, c: string)
    ensures WithCategory([x] + xs, category, c) ==
            (if category(x) == c then [x] else []) + WithCategory(xs, category, c)
  {
    assert ([x] + xs)[0] == x && ([x] + xs)[1..] == xs;
  }

  /** Filtering keeps the original order. */
  lemma {:induction false} WithCategoryIsSubsequence<T(!new)>(xs: seq<T>, category: T -> string, c: string)
    ensures IsSubsequence(WithCategory(xs, category, c), xs)
  {
    if xs != [] {
      WithCategoryIsSubsequence(xs[1..], category, c);
      var rest := WithCategory(xs[1..], category, c);
      if category(xs[0]) == c {
        assert WithCategory(xs, category, c) == [xs[0]] + rest;
        assert ([xs[0]] + rest)[1..] == rest;
      } else {
        assert WithCategory(xs, category, c) == rest;
        SubsequenceOfTail(rest, xs);
      }
    }
  }

  lemma {:induction false} SubsequenceOfTail<T>(r: seq<T>, xs: seq<T>)
    requires xs != [] && IsSubsequence(r, xs[1..])
    ensures IsSubsequence(r, xs)
    decreases |xs|, |r|
  {
    if r != [] && r[0] == xs[0] {
      SubsequenceDropHead(r, xs[1..]);
    }
  }

  lemma {:induction false} SubsequenceDropHead<T>(r: seq<T>, xs: seq<T>)
    requires r != [] && IsSubsequence(r, xs)
    ensures IsSubsequence(r[1..], xs)
    decreases |xs| + 1, 0
  {
    assert xs != [];
    if r[0] == xs[0] {
      if r[1..] != [] {
        SubsequenceOfTail(r[1..], xs);
      }
    } else {
      SubsequenceDropHead(r, xs[1..]);
      if r[1..] != [] {
        SubsequenceOfTail(r[1..], xs);
      }
    }
  }

  /** Filtering keeps every occurrence of each element of category c and no
      occurrence of any other element. */
  lemma {:induction false} WithCategoryCounts<T(!new)>(xs: seq<T>, category: T -> string, c: string, x: T)
    ensures multiset(WithCategory(xs, category, c))[x] ==
            if category(x) == c then multiset(xs)[x] else 0
  {
    if xs != [] {
      WithCategoryCounts(xs[1..], category, c, x);
      assert xs == [xs[0]] + xs[1..];
      assert multiset(xs) == multiset([xs[0]]) + multiset(xs[1..]);
    }
  }

  /** Filtering a filtered list by the same category changes nothing. */
  lemma {:induction false} WithCategoryIdempotent<T(!new)>(xs: seq<T>, category: T -> string, c: string)
    ensures WithCategory(WithCategory(xs, category, c), category, c) == WithCategory(xs, category, c)
  {
    if xs != [] {
      WithCategoryIdempotent(xs[1..], category, c);
      var rest := WithCategory(xs[1..], category, c);
      if category(xs[0]) == c {
        var r := [xs[0]] + rest;
        assert WithCategory(xs, category, c) == r;
        assert r[0] == xs[0] && r[1..] == rest;
        assert WithCategory(r, category, c) == [xs[0]] + WithCategory(rest, category, c);
      } else {
        assert WithCategory(xs, category, c) == rest;
      }
    }
  }

  /** Choosing the same category again gives the same list, `'All'` included. */
  lemma ByCategoryIdempotent<T(!new)>(xs: seq<T>, category: T -> string, selected: string)
    ensures ByCategory(ByCategory(xs, category, selected), category, selected) ==
            ByCategory(xs, category, selected)
  {
    if selected != All {
      WithCategoryIdempotent(xs, category, selected);
    }
  }

  /** No two elements of xs share a key. */
  predicate UniqueBy<T>(xs: seq<T>, key: T -> int)
  {
    forall i, j :: 0 <= i < j < |xs| ==> key(xs[i]) != key(xs[j])
  }

  /** In a list with unique keys an element is determined by its key. */
  lemma UniqueKeyDetermines<T>(xs: seq<T>, key: T -> int, x: T, y: T)
    requires UniqueBy(xs, key) && x in xs && y in xs && key(x) == key(y)
    ensures x == y
  {
    var i :| 0 <= i < |xs| && xs[i] == x;
    var j :| 0 <= j < |xs| && xs[j] == y;
    assert i == j;
  }

  /** Filtering cannot create two elements with the same key. */
  lemma {:induction false} WithCategoryKeepsUnique<T(!new)>(xs: seq<T>, category: T -> string, c: string, key: T -> int)
    requires UniqueBy(xs, key)
    ensures UniqueBy(WithCategory(xs, category, c), key)
  {
    if xs != [] {
      var tail := xs[1..];
      assert UniqueBy(tail, key) by {
        forall i, j | 0 <= i < j < |tail| ensures key(tail[i]) != key(tail[j]) {
          assert tail[i] == xs[i + 1] && tail[j] == xs[j + 1];
        }
      }
      WithCategoryKeepsUnique(tail, category, c, key);
      var rest := WithCategory(tail, category, c);
      if category(xs[0]) == c {
        var r := [xs[0]] + rest;
        assert WithCategory(xs, category, c) == r;
        forall i, j | 0 <= i < j < |r| ensures key(r[i]) != key(r[j]) {
          if i == 0 {
            assert r[j] == rest[j - 1] && r[j] in tail;
            var k :| 0 <= k < |tail| && tail[k] == r[j];
            assert xs[k + 1] == r[j];
          } else {
            assert r[i] == rest[i - 1] && r[j] == rest[j - 1];
          }
        }
      }
    }
  }

  /** `xs.findIndex(p)`: the first index whose element satisfies p, or -1. */
  function FindIndex<T>(xs: seq<T>, p: T -> bool): (r: int)
    ensures -1 <= r < |xs|
    ensures r == -1 <==> forall j :: 0 <= j < |xs| ==> !p(xs[j])
    ensures r >= 0 ==> p(xs[r]) && forall j :: 0 <= j < r ==> !p(xs[j])
  {
    if xs == [] then -1
    else if p(xs[0]) then 0
    else
      var k := FindIndex(xs[1..], p);
      if k < 0 then -1 else k + 1
  }
}
