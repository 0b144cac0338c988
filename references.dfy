/** Model of src/reference_demo.cpp. A reference parameter through which the
    function only writes (or reads and then writes) is an out-parameter here; the
    referent of a local reference is an IntCell shared by both names. */
module References {
  import opened MachineInt
  import opened Arith
  import opened Memory

  /** `reference_demo()`: `int& rn1 = n1` names the same object as n1 (no new storage),
      so `rn1 = 2` changes n1. Returns n1 after the assignment. */
  method ReferenceDemo() returns (n1Value: Int32)
    ensures n1Value == 2
  {
    var n1 := new IntCell(1);
    var rn1 := n1;
    rn1.value := 2;
    n1Value := n1.value;
  }

  /** `void Add(int a, int b, int &result)`: stores a + b into result; a and b are
      passed by value. The sum must fit in `int`. */
  method Add(a: Int32, b: Int32) returns (result: Int32)
    requires InInt32(a + b)
    ensures result == a + b
  {
    result := a + b;
  }

  /** `void Factorial(int a, int &result)`: result = 1 * 1 * 2 * ... * a, which is a!
      for a >= 1 and 1 for a <= 0. Beyond 12! the `int` product overflows, so the
      caller must keep a <= 12. */
  method Factorial(a: Int32) returns (result: Int32)
    requires a <= 12
    ensures result == Fact(if a <= 0 then 0 else a)
  {
    result := 1;
    var i: Int32 := 1;
    while i <= a
      invariant 1 <= i <= (if a <= 0 then 1 else a + 1)
      invariant result == Fact(i - 1)
    {
      FactFitsInt32(i);
      result := result * i;
      i := i + 1;
    }
  }

  /** `void Swap(int &a, int &b)`: exchanges the two values. */
  method Swap(a: Int32, b: Int32) returns (a': Int32, b': Int32)
    ensures a' == b && b' == a
  {
    var temp := a;
    a' := b;
    b' := temp;
  }

  /** `test_algos()`: Add(2, 3) gives 5, Swap turns (2, 3) into (3, 2), Factorial(3)
      gives 6. Returns n1, n2, n3 at the end. */
  method TestAlgos() returns (n1: Int32, n2: Int32, n3: Int32)
    ensures n1 == 3 && n2 == 2 && n3 == 6
  {
    n1, n2 := 2, 3;
    n3 := Add(n1, n2);
    assert n3 == 5;
    n1, n2 := Swap(n1, n2);
    assert n1 == 3 && n2 == 2;
    n3 := Factorial(3);
    assert Fact(3) == 6;
  }
}
