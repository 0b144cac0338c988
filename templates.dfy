/** Model of src/templates_demo.cpp at T = `int`: `max`, `add`, the array reductions
    `arrSum`, `arrMax`, `arrMinMax`, `sum` and `sum2`, and the `strcmp`-based
    specialisation `max<const char*>`. A `T* arr` with a `size` is an `array<Int32>`
    of which the first `size` elements are used. */
module Templates {
  import opened MachineInt
  import CStrings

  /** `int max(int n1, int n2)` (and the template `max<T>` at `int`): the larger
      argument; on a tie the second, which for `int` is the same value. */
  function Max(n1: Int32, n2: Int32): (r: Int32)
    ensures r >= n1 && r >= n2
    ensures r == n1 || r == n2
  {
    if n1 > n2 then n1 else n2
  }

  /** `T add(const T& t1, const T& t2)` at `int`; the sum must fit in `int`. */
  function Add(t1: Int32, t2: Int32): Int32
    requires InInt32(t1 + t2)
  {
    t1 + t2
  }

  /** At `T = int`, `add` returns the sum of its arguments whenever it fits in `int`. */
  lemma AddReturnsSum(t1: Int32, t2: Int32)
    requires InInt32(t1 + t2)
    ensures Add(t1, t2) == t1 + t2
  {
  }

  /** The sum of a sequence, 0 when empty. */
  function Total(s: seq<int>): int
  {
    if s == [] then 0 else Total(s[..|s| - 1]) + s[|s| - 1]
  }

  /** Every running sum of the elements fits in `int`, so accumulating them in an
      `int` never overflows. */
  predicate RunningSumsFit(s: seq<int>)
  {
    forall k :: 0 <= k <= |s| ==> InInt32(Total(s[..k]))
  }

  /** `T arrSum(T* arr, size_t size)`: accumulates arr[0..size) from 0 with a `size_t`
      counter; the result is their sum (0 for size 0). */
  method ArrSum(arr: array<Int32>, size: nat) returns (sum: Int32)
    requires size <= arr.Length && RunningSumsFit(arr[..size])
    ensures sum == Total(arr[..size])
  {
    sum := 0;
    var i := 0;
    while i < size
      invariant 0 <= i <= size
      invariant sum == Total(arr[..i])
    {
      assert arr[..i + 1][..i] == arr[..i];
      assert arr[..size][..i + 1] == arr[..i + 1];
      sum := sum + arr[i];
      i := i + 1;
    }
  }

  /** `T arrMax(T* arr, size_t size)`: starts from arr[0], so the array must have an
      element even when size is 0 (the result is then arr[0]); otherwise the result
      is an element of arr[0..size) no element exceeds. */
  method ArrMax(arr: array<Int32>, size: nat) returns (max: Int32)
    requires 1 <= arr.Length && size <= arr.Length
    ensures forall k :: 0 <= k < size ==> arr[k] <= max
    ensures if size == 0 then max == arr[0] else max in arr[..size]
  {
    max := arr[0];
    var i := 0;
    while i < size
      invariant 0 <= i <= size
      invariant forall k :: 0 <= k < i ==> arr[k] <= max
      invariant max == arr[0] || max in arr[..i]
    {
      if arr[i] > max {
        max := arr[i];
      }
      i := i + 1;
    }
    if size > 0 {
      assert arr[0] in arr[..size];
    }
  }

  /** `std::pair<T,T> arrMinMax(T *arr, size_t size)`: (least, greatest) of arr[0..size),
      both starting from arr[0]. Both are elements, so first <= second. */
  method ArrMinMax(arr: array<Int32>, size: nat) returns (first: Int32, second: Int32)
    requires 1 <= arr.Length && size <= arr.Length
    ensures forall k :: 0 <= k < size ==> first <= arr[k] <= second
    ensures if size == 0 then first == second == arr[0] else first in arr[..size] && second in arr[..size]
    ensures first <= second
  {
    first, second := arr[0], arr[0];
    var i := 0;
    while i < size
      invariant 0 <= i <= size
      invariant forall k :: 0 <= k < i ==> first <= arr[k] <= second
      invariant first == arr[0] || first in arr[..i]
      invariant second == arr[0] || second in arr[..i]
      invariant first <= arr[0] <= second
    {
      if arr[i] < first {
        first := arr[i];
      }
      if arr[i] > second {
        second := arr[i];
      }
      i := i + 1;
    }
    if size > 0 {
      assert arr[0] in arr[..size];
    }
  }

  /** `T sum(T* arr, size_t size)` in non_type_template_arguments: the same sum with a
      value-initialised accumulator and an `int` counter, which must not overflow
      before reaching size. */
  method Sum(arr: array<Int32>, size: nat) returns (sum: Int32)
    requires size <= arr.Length && size <= MaxInt32 && RunningSumsFit(arr[..size])
    ensures sum == Total(arr[..size])
  {
    sum := 0;
    var i: Int32 := 0;
    while i < size
      invariant 0 <= i <= size
      invariant sum == Total(arr[..i])
    {
      assert arr[..i + 1][..i] == arr[..i];
      assert arr[..size][..i + 1] == arr[..i + 1];
      sum := sum + arr[i];
      i := i + 1;
    }
  }

  /** `T sum2(T (&arr)[size])`: the size is the array's own length, a template `int`
      argument; the result is the sum of the whole array. */
  method Sum2(arr: array<Int32>) returns (sum: Int32)
    requires arr.Length <= MaxInt32 && RunningSumsFit(arr[..])
    ensures sum == Total(arr[..])
  {
    sum := 0;
    var i: Int32 := 0;
    while i < arr.Length
      invariant 0 <= i <= arr.Length
      invariant sum == Total(arr[..i])
    {
      assert arr[..i + 1][..i] == arr[..i];
      assert arr[..][..i + 1] == arr[..i + 1];
      sum := sum + arr[i];
      i := i + 1;
    }
    assert arr[..i] == arr[..];
  }

  /** `non_type_template_arguments::demo()`: sum and sum2 of {1, 2, 3} are both 6. */
  method NonTypeTemplateArgumentsDemo() returns (sumVal1: Int32, sumVal2: Int32)
    ensures sumVal1 == 6 && sumVal2 == 6
  {
    var arrInt := new Int32[3](i => i + 1);
    assert arrInt[..] == [1, 2, 3];
    var s: seq<int> := [1, 2, 3];
    assert s[..0] == [] && s[..1] == [1] && s[..2] == [1, 2] && s[..3] == s;
    assert [1, 2][..1] == [1] && [1][..0] == [];
    assert Total(s[..1]) == 1 && Total(s[..2]) == 3 && Total(s) == 6;
    assert RunningSumsFit(arrInt[..]);
    sumVal1 := Sum(arrInt, 3);
    sumVal2 := Sum2(arrInt);
  }

  /** `explicit_specialization::solution::max<const char*>`: compares the strings'
      contents with `strcmp` instead of their addresses; returns arg1 exactly when
      `strcmp(arg1, arg2) > 0`. The result is the lexicographically greater string. */
  function MaxCString(arg1: string, arg2: string): (r: string)
    requires CStrings.NUL !in arg1 && CStrings.NUL !in arg2
    ensures r == arg1 || r == arg2
    ensures !CStrings.LexLess(r, arg1) && !CStrings.LexLess(r, arg2)
  {
    CStrings.StrcmpIsLexicographic(arg1, arg2);
    CStrings.StrcmpIsLexicographic(arg1, arg1);
    CStrings.StrcmpIsLexicographic(arg2, arg2);
    if CStrings.Strcmp(arg1, arg2) > 0 then arg1 else arg2
  }

  /** `explicit_specialization::demo()`: max("A", "B") is "B" and max("C", "B") is "C". */
  lemma MaxCStringDemo()
    ensures MaxCString("A", "B") == "B" && MaxCString("C", "B") == "C"
  {
  }
}
