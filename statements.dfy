/** Model of src/statements_demo.cpp: class `S` and the loops of
    `range_based_for_loop_demo` over a `std::vector<S>`. The vector's elements are
    distinct `S` objects, given in order as a sequence; what the loops print is
    returned as the sequence of values they read. */
module Statements {
  import opened MachineInt

  class S {
    var n: Int32

    /** `S(int n)` */
    constructor (n: Int32)
      ensures this.n == n
    {
      this.n := n;
    }

    /** `S(const S& s)`: a new object holding the same value. */
    constructor Copy(s: S)
      ensures n == s.n
    {
      n := s.n;
    }

    function GetValue(): Int32
      reads this
    {
      n
    }

    /** `void SetValue(int n)`: replaces the held value and nothing else. */
    method SetValue(n: Int32)
      modifies this
      ensures this.n == n
    {
      this.n := n;
    }
  }

  /** The values held by the elements of v, in order. */
  function Values(v: seq<S>): (r: seq<int>)
    reads set s | s in v
    ensures |r| == |v|
  {
    if v == [] then [] else Values(v[..|v| - 1]) + [v[|v| - 1].n]
  }

  lemma {:induction false} ValuesAt(v: seq<S>, k: nat)
    requires k < |v|
    ensures Values(v)[k] == v[k].n
  {
    if k < |v| - 1 {
      ValuesAt(v[..|v| - 1], k);
    }
  }

  /** Elements of a vector are distinct objects. */
  predicate Distinct(v: seq<S>)
  {
    forall i, j :: 0 <= i < j < |v| ==> v[i] != v[j]
  }

  /** `for (auto el : v)`: each element is copied with `S(const S&)` and the copy is
      read; the elements themselves are not changed (the method modifies nothing). */
  method ByValueLoop(v: seq<S>) returns (seen: seq<int>)
    ensures seen == Values(v)
  {
    seen := [];
    var i := 0;
    while i < |v|
      invariant 0 <= i <= |v|
      invariant seen == Values(v[..i])
    {
      var el := new S.Copy(v[i]);
      assert v[..i + 1][..i] == v[..i];
      seen := seen + [el.GetValue()];
      i := i + 1;
    }
    assert v[..i] == v;
  }

  /** `for (auto& el : v) el.SetValue(el.GetValue() + 10);`: every element gains 10 in
      place; the vector keeps its size and order. Each new value must fit in `int`. */
  method AddTenByReference(v: seq<S>)
    requires Distinct(v)
    requires forall k :: 0 <= k < |v| ==> InInt32(v[k].n + 10)
    modifies set s | s in v
    ensures forall k :: 0 <= k < |v| ==> v[k].n == old(v[k].n) + 10
  {
    var i := 0;
    while i < |v|
      invariant 0 <= i <= |v|
      invariant forall k :: 0 <= k < i ==> v[k].n == old(v[k].n) + 10
      invariant forall k :: i <= k < |v| ==> v[k].n == old(v[k].n)
    {
      var el := v[i];
      el.SetValue(el.GetValue() + 10);
      i := i + 1;
    }
  }

  /** `for (const auto& el : v)`: reads each element through a const reference;
      nothing is copied or changed. */
  method ConstReferenceLoop(v: seq<S>) returns (seen: seq<int>)
    ensures seen == Values(v)
  {
    seen := [];
    for i := 0 to |v|
      invariant seen == Values(v[..i])
    {
      assert v[..i + 1][..i] == v[..i];
      seen := seen + [v[i].GetValue()];
    }
    assert v[..|v|] == v;
  }

  /** `for (auto i = 0; i < v.size(); ++i) v.at(i).GetValue()`: visits i = 0 .. size - 1
      in order, every `at(i)` within bounds; the `int` counter needs size <= INT_MAX. */
  method IndexedLoop(v: seq<S>) returns (visited: seq<int>, seen: seq<int>)
    requires |v| <= MaxInt32
    ensures visited == seq(|v|, i => i)
    ensures seen == Values(v)
  {
    visited, seen := [], [];
    var i: Int32 := 0;
    while i < |v|
      invariant 0 <= i <= |v|
      invariant visited == seq(i, k => k)
      invariant seen == Values(v[..i])
    {
      assert v[..i + 1][..i] == v[..i];
      visited := visited + [i];
      seen := seen + [v[i].GetValue()];
      i := i + 1;
    }
    assert v[..i] == v;
  }

  lemma ValuesOfThree(v: seq<S>)
    requires |v| == 3
    ensures Values(v) == [v[0].n, v[1].n, v[2].n]
  {
    ValuesAt(v, 0);
    ValuesAt(v, 1);
    ValuesAt(v, 2);
  }

  /** `range_based_for_loop_demo()` on {S(1), S(2), S(3)}: the by-value and
      const-reference loops leave [1, 2, 3], the reference loop makes it
      [11, 12, 13], and the indexed loop then reads 11, 12, 13 at 0, 1, 2. */
  method RangeBasedForLoopDemo() returns (before: seq<int>, after: seq<int>, indexed: seq<int>)
    ensures before == [1, 2, 3] && after == [11, 12, 13] && indexed == [11, 12, 13]
  {
    var s1 := new S(1);
    var s2 := new S(2);
    var s3 := new S(3);
    var v := [s1, s2, s3];
    before := ByValueLoop(v);
    ValuesOfThree(v);
    AddTenByReference(v);
    assert s1.n == 11 && s2.n == 12 && s3.n == 13;
    after := ConstReferenceLoop(v);
    ValuesOfThree(v);
    var visited;
    visited, indexed := IndexedLoop(v);
  }
}
