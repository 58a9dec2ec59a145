/** `Array.prototype.filter` on sequences, with the facts the pages rely on: a filter keeps
    exactly the elements that pass, in their original order, and counting the elements
    that pass mutually exclusive tests never exceeds the length of the list. */
module Lists {

  /** The elements of `s` that satisfy `p`, in order. */
  function Filter<T>(s: seq<T>, p: T -> bool): (r: seq<T>)
    ensures |r| <= |s|
    ensures forall i :: 0 <= i < |r| ==> p(r[i])
    ensures forall x :: x in r ==> x in s
  {
    if s == [] then [] else (if p(s[0]) then [s[0]] else []) + Filter(s[1..], p)
  }

  /** Filtering distributes over concatenation: the filter never reorders elements. */
  lemma {:induction false} FilterAppend<T>(a: seq<T>, b: seq<T>, p: T -> bool)
    ensures Filter(a + b, p) == Filter(a, p) + Filter(b, p)
  {
    if a == [] {
      assert a + b == b;
    } else {
      assert (a + b)[0] == a[0];
      assert (a + b)[1..] == a[1..] + b;
      FilterAppend(a[1..], b, p);
    }
  }

  /** An element survives the filter exactly when it is in the list and passes the test. */
  lemma {:induction false} FilterMember<T>(s: seq<T>, p: T -> bool, x: T)
    ensures x in Filter(s, p) <==> x in s && p(x)
  {
    if s != [] {
      FilterMember(s[1..], p, x);
      assert s == [s[0]] + s[1..];
    }
  }

  /** A weaker test keeps at least as many elements. */
  lemma {:induction false} FilterMonotone<T>(s: seq<T>, p: T -> bool, q: T -> bool)
    requires forall x :: p(x) ==> q(x)
    ensures |Filter(s, p)| <= |Filter(s, q)|
  {
    if s != [] {
      FilterMonotone(s[1..], p, q);
    }
  }

  /** Two exclusive tests together keep at most every element once. */
  lemma {:induction false} FilterDisjointCounts<T>(s: seq<T>, p: T -> bool, q: T -> bool)
    requires forall x :: !(p(x) && q(x))
    ensures |Filter(s, p)| + |Filter(s, q)| <= |s|
  {
    if s != [] {
      FilterDisjointCounts(s[1..], p, q);
    }
  }

  /** Three pairwise exclusive tests together keep at most every element once. */
  lemma {:induction false} FilterExclusiveCounts<T>(s: seq<T>, p: T -> bool, q: T -> bool, r: T -> bool)
    requires forall x :: !(p(x) && q(x))
    requires forall x :: !(p(x) && r(x))
    requires forall x :: !(q(x) && r(x))
    ensures |Filter(s, p)| + |Filter(s, q)| + |Filter(s, r)| <= |s|
  {
    if s != [] {
      FilterExclusiveCounts(s[1..], p, q, r);
    }
  }

  /** The filter bar shared by the listing pages: the value "all" shows the whole list,
      any other value keeps the elements whose `key` equals it. */
  function SelectBy<T>(s: seq<T>, selected: string, key: T -> string): (r: seq<T>)
    ensures selected == "all" ==> r == s
    ensures selected != "all" ==> forall i :: 0 <= i < |r| ==> key(r[i]) == selected
    ensures |r| <= |s|
  {
    if selected == "all" then s else Filter(s, (x: T) => key(x) == selected)
  }

  /** Under a selection other than "all", an element is shown exactly when it is in the
      list and its key is the selected value; the shown elements keep their order. */
  lemma SelectByExact<T>(s: seq<T>, selected: string, key: T -> string)
    requires selected != "all"
    ensures forall x :: x in SelectBy(s, selected, key) <==> x in s && key(x) == selected
    ensures forall a, b :: s == a + b ==>
              SelectBy(s, selected, key) == SelectBy(a, selected, key) + SelectBy(b, selected, key)
  {
    var p := (x: T) => key(x) == selected;
    forall x
      ensures x in SelectBy(s, selected, key) <==> x in s && key(x) == selected
    {
      FilterMember(s, p, x);
    }
    forall a, b | s == a + b
      ensures SelectBy(s, selected, key) == SelectBy(a, selected, key) + SelectBy(b, selected, key)
    {
      FilterAppend(a, b, p);
    }
  }
}
