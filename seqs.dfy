/** The array helpers the source uses: `find`, `findIndex`, `filter` and counting. */
module Seqs {
  import opened Wrappers

  /** `findIndex`, with "not found" reported as `|s|`. */
  function FirstIndex<T>(s: seq<T>, p: T -> bool): (k: nat)
    ensures k <= |s|
    ensures forall j :: 0 <= j < k ==> !p(s[j])
    ensures k < |s| ==> p(s[k])
  {
    if |s| == 0 then 0 else if p(s[0]) then 0 else 1 + FirstIndex(s[1..], p)
  }

  /** `Array.prototype.find`: the first element satisfying `p`. */
  function Find<T>(s: seq<T>, p: T -> bool): (r: Option<T>)
    ensures r.None? <==> forall j :: 0 <= j < |s| ==> !p(s[j])
    ensures r.Some? ==> r.value in s && p(r.value)
    ensures r.Some? ==> exists k :: 0 <= k < |s| && s[k] == r.value && forall j :: 0 <= j < k ==> !p(s[j])
  {
    var k := FirstIndex(s, p);
    if k < |s| then Some(s[k]) else None
  }

  /** `Array.prototype.filter`. */
  function Filter<T(!new)>(s: seq<T>, p: T -> bool): (r: seq<T>)
    ensures |r| <= |s|
  {
    if |s| == 0 then [] else (if p(s[0]) then [s[0]] else []) + Filter(s[1..], p)
  }

  /** The number of elements satisfying `p` (a `select count(*)` with a `where`). */
  function Count<T>(s: seq<T>, p: T -> bool): (n: nat)
    ensures n <= |s|
    ensures n == 0 <==> forall j :: 0 <= j < |s| ==> !p(s[j])
  {
    if |s| == 0 then 0 else (if p(s[0]) then 1 else 0) + Count(s[1..], p)
  }

  /** Replacing one element changes the count by what that element contributes. */
  lemma {:induction false} CountUpdate<T>(s: seq<T>, p: T -> bool, k: nat, x: T)
    requires k < |s|
    ensures Count(s[k := x], p) == Count(s, p) - (if p(s[k]) then 1 else 0) + (if p(x) then 1 else 0)
  {
    if k > 0 {
      assert s[k := x][1..] == s[1..][k - 1 := x];
      CountUpdate(s[1..], p, k - 1, x);
    } else {
      assert s[k := x][1..] == s[1..];
    }
  }

  lemma {:induction false} CountAppend<T>(s: seq<T>, t: seq<T>, p: T -> bool)
    ensures Count(s + t, p) == Count(s, p) + Count(t, p)
  {
    if |s| > 0 {
      assert (s + t)[1..] == s[1..] + t;
      CountAppend(s[1..], t, p);
    } else {
      assert s + t == t;
    }
  }

  /** When exactly one element satisfies `p`, it is the one `FirstIndex` finds. */
  lemma {:induction false} CountOneIsFirst<T>(s: seq<T>, p: T -> bool, i: nat)
    requires i < |s| && p(s[i]) && Count(s, p) == 1
    ensures FirstIndex(s, p) == i
  {
    if i > 0 {
      assert s[1..][i - 1] == s[i];
      CountOneIsFirst(s[1..], p, i - 1);
    }
  }

  /** `filter` keeps exactly the elements satisfying the predicate. */
  lemma {:induction false} FilterMembers<T(!new)>(s: seq<T>, p: T -> bool)
    ensures forall x :: x in Filter(s, p) <==> x in s && p(x)
  {
    if |s| > 0 {
      FilterMembers(s[1..], p);
      assert forall x :: x in s <==> x == s[0] || x in s[1..];
    }
  }

  lemma {:induction false} FilterAppend<T(!new)>(s: seq<T>, t: seq<T>, p: T -> bool)
    ensures Filter(s + t, p) == Filter(s, p) + Filter(t, p)
  {
    if |s| > 0 {
      assert (s + t)[1..] == s[1..] + t;
      FilterAppend(s[1..], t, p);
    } else {
      assert s + t == t;
    }
  }

  lemma FilterCons<T(!new)>(x: T, t: seq<T>, p: T -> bool)
    ensures Filter([x] + t, p) == if p(x) then [x] + Filter(t, p) else Filter(t, p)
  {
    assert ([x] + t)[1..] == t;
  }

  /** The length of a filtered sequence is the count of its matching elements. */
  lemma {:induction false} FilterLength<T(!new)>(s: seq<T>, p: T -> bool)
    ensures |Filter(s, p)| == Count(s, p)
  {
    if |s| > 0 {
      FilterLength(s[1..], p);
    }
  }

  /** `reduce((sum, x) => sum + f(x), 0)`. */
  function Sum<T>(s: seq<T>, f: T -> int): (total: int)
    ensures (forall j :: 0 <= j < |s| ==> f(s[j]) == 0) ==> total == 0
  {
    if |s| == 0 then 0 else f(s[0]) + Sum(s[1..], f)
  }

  lemma {:induction false} SumAppend<T>(s: seq<T>, t: seq<T>, f: T -> int)
    ensures Sum(s + t, f) == Sum(s, f) + Sum(t, f)
  {
    if |s| > 0 {
      assert (s + t)[1..] == s[1..] + t;
      SumAppend(s[1..], t, f);
    } else {
      assert s + t == t;
    }
  }

  lemma SumCons<T>(x: T, t: seq<T>, f: T -> int)
    ensures Sum([x] + t, f) == f(x) + Sum(t, f)
  {
    assert ([x] + t)[1..] == t;
  }

  /**
   * `.eq(key).maybeSingle()` read through a catch that maps every error to null: the row when
   * exactly one matches, otherwise nothing (no row, or an error for several).
   */
  function FindSingle<T>(s: seq<T>, p: T -> bool): (r: Option<T>)
    ensures r.Some? <==> Count(s, p) == 1
    ensures r.Some? ==> r.value in s && p(r.value)
  {
    if Count(s, p) == 1 then
      var k := FirstIndex(s, p);
      assert k < |s|;
      Some(s[k])
    else None
  }

  /**
   * `.update(..).eq(key).select().single()`: rewrites the one matching element with `f` and
   * returns it; with no match or several the statement fails and nothing changes.
   */
  function UpdateSingle<T>(s: seq<T>, p: T -> bool, f: T -> T): (r: Option<(seq<T>, T)>)
    ensures r.Some? <==> Count(s, p) == 1
    ensures r.Some? ==>
              |r.value.0| == |s|
              && forall j :: 0 <= j < |s| ==> r.value.0[j] == (if p(s[j]) then f(s[j]) else s[j])
    ensures r.Some? ==> exists j :: 0 <= j < |s| && p(s[j]) && r.value.1 == f(s[j])
  {
    if Count(s, p) != 1 then None
    else
      var k := FirstIndex(s, p);
      assert k < |s|;
      forall j | 0 <= j < |s| && p(s[j]) ensures j == k {
        CountOneIsFirst(s, p, j);
      }
      Some((s[k := f(s[k])], f(s[k])))
  }

  /** When exactly one element matches, the update rewrites it at its own index. */
  lemma UpdateSingleAt<T>(s: seq<T>, p: T -> bool, f: T -> T, k: nat)
    requires k < |s| && p(s[k]) && Count(s, p) == 1
    ensures UpdateSingle(s, p, f) == Some((s[k := f(s[k])], f(s[k])))
    ensures FindSingle(s, p) == Some(s[k])
  {
    CountOneIsFirst(s, p, k);
  }

  /** `x` capped at `n`. */
  function Clamp(x: nat, n: nat): (r: nat)
    ensures r <= x && r <= n && (r == x || r == n)
  {
    if x <= n then x else n
  }

  /**
   * `.range(from, from + count - 1)` (or `.limit(count)` when `from` is 0): the elements at
   * positions `from` up to but excluding `from + count` that exist.
   */
  function Window<T>(s: seq<T>, from: nat, count: nat): (r: seq<T>)
    ensures |r| == Clamp(from + count, |s|) - Clamp(from, |s|)
    ensures |r| <= count
    ensures forall i :: 0 <= i < |r| ==> r[i] == s[from + i]
  {
    s[Clamp(from, |s|)..Clamp(from + count, |s|)]
  }

  /** A window holds only elements of the sequence it is cut from. */
  lemma WindowMembers<T>(s: seq<T>, from: nat, count: nat)
    ensures forall x :: x in Window(s, from, count) ==> x in s
  {
    assert Window(s, from, count) == s[Clamp(from, |s|)..Clamp(from + count, |s|)];
  }

  /** Two adjacent windows of the same size make up the window of twice the size. */
  lemma WindowsJoin<T>(s: seq<T>, from: nat, count: nat)
    ensures Window(s, from, count) + Window(s, from + count, count) == Window(s, from, 2 * count)
  {
    var a, b, c := Clamp(from, |s|), Clamp(from + count, |s|), Clamp(from + 2 * count, |s|);
    assert s[a..b] + s[b..c] == s[a..c];
  }

  /** The first `count` elements, or all of them when there are fewer. */
  lemma WindowFromStart<T>(s: seq<T>, count: nat)
    ensures Window(s, 0, count) == s[..Clamp(count, |s|)]
  {
  }

  /** The sequence in the opposite order. */
  function Reverse<T>(s: seq<T>): (r: seq<T>)
    ensures |r| == |s|
    ensures forall i :: 0 <= i < |s| ==> r[i] == s[|s| - 1 - i]
  {
    if |s| == 0 then [] else Reverse(s[1..]) + [s[0]]
  }

  /** Reversing keeps the same elements. */
  lemma ReverseMembers<T>(s: seq<T>)
    ensures forall x :: x in Reverse(s) <==> x in s
  {
    var r := Reverse(s);
    forall x | x in s ensures x in r {
      var k :| 0 <= k < |s| && s[k] == x;
      assert r[|s| - 1 - k] == x;
    }
    forall x | x in r ensures x in s {
      var k :| 0 <= k < |r| && r[k] == x;
      assert s[|s| - 1 - k] == x;
    }
  }

  /** Reordering does not change a count. */
  lemma {:induction false} CountReverse<T>(s: seq<T>, p: T -> bool)
    ensures Count(Reverse(s), p) == Count(s, p)
  {
    if |s| > 0 {
      CountReverse(s[1..], p);
      CountAppend(Reverse(s[1..]), [s[0]], p);
      assert [s[0]][1..] == [];
    }
  }

  /** A filter every element passes keeps the whole sequence. */
  lemma {:induction false} FilterAll<T(!new)>(s: seq<T>, p: T -> bool)
    requires forall j :: 0 <= j < |s| ==> p(s[j])
    ensures Filter(s, p) == s
  {
    if |s| > 0 {
      FilterAll(s[1..], p);
    }
  }
}
