/** Model of src/pointer_demo.cpp: functions that read and write `int` objects through
    pointers. A pointer is a reference to an IntCell; two pointer parameters may point
    to the same object, and the contracts say what happens then. */
module Pointers {
  import opened MachineInt
  import opened Arith
  import opened Memory

  /** `pointer_demo()`: `pInt1 = &n1; *pInt1 = 2;` changes n1, and `n2 = *pInt1` then
      reads 2. Returns n1 and n2. */
  method PointerDemo() returns (n1Value: Int32, n2: Int32)
    ensures n1Value == 2 && n2 == 2
  {
    var n1 := new IntCell(1);
    var pInt1 := n1;
    pInt1.value := 2;
    n2 := pInt1.value;
    n1Value := n1.value;
  }

  /** `int Add(int *a, int *b)`: reads both objects and writes nothing. */
  function Add(a: IntCell, b: IntCell): Int32
    reads a, b
    requires InInt32(a.value + b.value)
  {
    a.value + b.value
  }

  /** `void AddVal(int *a, int *b, int *result)`: writes *a + *b to *result and to no
      other object (result may be a or b). */
  method AddVal(a: IntCell, b: IntCell, result: IntCell)
    requires InInt32(a.value + b.value)
    modifies result
    ensures result.value == old(a.value) + old(b.value)
  {
    result.value := a.value + b.value;
  }

  /** `void Swap(int *a, int *b)`: exchanges *a and *b; when both point to the same
      object it is unchanged. */
  method Swap(a: IntCell, b: IntCell)
    modifies a, b
    ensures a.value == old(b.value) && b.value == old(a.value)
  {
    var temp := a.value;
    a.value := b.value;
    b.value := temp;
  }

  /** `void Factorial(int *a, int *result)`: `*result = 1`, then multiplies *result
      by 1, 2, ... while the counter is at most *a, re-reading *a on every test.
      With distinct objects *result ends as (*a)! (1 when *a <= 0), which fits in
      `int` only for *a <= 12. When a and result are the same object, `*result = 1`
      also sets *a to 1, so the loop runs once and the result is 1. */
  method Factorial(a: IntCell, result: IntCell)
    requires a != result ==> a.value <= 12
    modifies result
    ensures a != result ==> result.value == Fact(if old(a.value) <= 0 then 0 else old(a.value))
    ensures a == result ==> result.value == 1
  {
    ghost var aliased := a == result;
    ghost var n := old(a.value);
    result.value := 1;
    var i: Int32 := 1;
    while i <= a.value
      invariant aliased <==> a == result
      invariant !aliased ==> a.value == n && 1 <= i <= (if n <= 0 then 1 else n + 1)
      invariant !aliased ==> result.value == Fact(i - 1)
      invariant aliased ==> result.value == 1 && 1 <= i <= 2
      decreases a.value + 1 - i
    {
      if !aliased {
        FactFitsInt32(i);
        assert result.value * i == Fact(i);
      }
      result.value := result.value * i;
      i := i + 1;
    }
  }

  /** `test_algos()`: Add(&2, &3) is 5, AddVal stores 5, Swap gives (3, 2), and
      Factorial(&n1, &n3) with n1 = 3 stores 6. Returns n1, n2, n3 at the end. */
  method TestAlgos() returns (n1: Int32, n2: Int32, n3: Int32)
    ensures n1 == 3 && n2 == 2 && n3 == 6
  {
    var c1 := new IntCell(2);
    var c2 := new IntCell(3);
    var c3 := new IntCell(0);
    assert Add(c1, c2) == 5;
    AddVal(c1, c2, c3);
    assert c3.value == 5;
    Swap(c1, c2);
    assert c1.value == 3 && c2.value == 2;
    Factorial(c1, c3);
    assert Fact(3) == 6;
    n1, n2, n3 := c1.value, c2.value, c3.value;
  }
}
