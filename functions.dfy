/** Model of src/functions_demo.cpp: `add(int, int)`, `square`, `square_inlined`, the
    `SQUARE` macro and calls through function pointers. */
module Functions {
  import opened MachineInt

  /** `int add(int a, int b)`; the sum must fit in `int`. */
  function Add(a: Int32, b: Int32): Int32
    requires InInt32(a + b)
  {
    a + b
  }

  /** `int square(int x)`; the product must fit in `int`. */
  function Square(x: Int32): Int32
    requires InInt32(x * x)
  {
    x * x
  }

  /** `inline int square_inlined(int x)`: `inline` is only a hint to the compiler. */
  function SquareInlined(x: Int32): Int32
    requires InInt32(x * x)
  {
    x * x
  }

  /** Inlining does not change the meaning: both functions agree on every input
      for which they are defined, and the result is never negative. */
  lemma SquareInlinedAgrees(x: Int32)
    requires InInt32(x * x)
    ensures SquareInlined(x) == Square(x) >= 0
  {
  }

  /** `#define SQUARE(x) x*x` applied to a single token `x` expands to `x*x`. */
  function SquareMacro(x: Int32): Int32
    requires InInt32(x * x)
  {
    x * x
  }

  /** `#define SQUARE(x) x*x` is textual substitution: the argument text `a + b`
      yields `a + b*a + b`, which multiplication binds as a + (b * a) + b. */
  function SquareMacroOfSum(a: Int32, b: Int32): Int32
    requires InInt32(b * a) && InInt32(a + b * a) && InInt32(a + b * a + b)
  {
    a + b * a + b
  }

  /** SQUARE(n + 1) is 2n + 1, which equals square(n + 1) = (n + 1)^2 only at n = 0. */
  lemma SquareMacroOfIncrement(n: Int32)
    requires InInt32(2 * n + 1) && InInt32((n + 1) * (n + 1))
    ensures SquareMacroOfSum(n, 1) == 2 * n + 1
    ensures SquareMacroOfSum(n, 1) == Square(n + 1) <==> n == 0
  {
    assert (n + 1) * (n + 1) == n * n + 2 * n + 1;
    if n != 0 {
      assert n * n > 0 by {
        if n > 0 { assert n * n >= n; } else { assert n * n == (-n) * (-n) >= -n; }
      }
    }
  }

  /** `inline_function_demo()`: square(3) = 9, SQUARE(3) = 9, SQUARE(3 + 1) = 7
      where square(3 + 1) = 16. */
  lemma InlineFunctionDemo()
    ensures Square(3) == 9 && SquareMacro(3) == 9 && SquareInlined(3) == 9
    ensures SquareMacroOfSum(3, 1) == 7 && Square(4) == 16
  {
  }

  /** A pointer to `add` computes what `add` computes, for every pair of arguments
      for which `add` is defined. */
  lemma FunctionPointerAgrees(x: Int32, y: Int32)
    requires InInt32(x + y)
    ensures var pAddInt := Add; pAddInt.requires(x, y) && pAddInt(x, y) == Add(x, y) == x + y
  {
  }

  /** `function_pointer_demo()`: a pointer to `add`, taken with or without `&` and
      called directly or dereferenced, gives 7 for (3, 4) and 9 for (4, 5).
      Returns the three sums. */
  method FunctionPointerDemo() returns (sum1: Int32, sum2: Int32, sum3: Int32)
    ensures sum1 == 7 && sum2 == 7 && sum3 == 9
  {
    var pAddInt := Add;
    FunctionPointerAgrees(3, 4);
    sum1 := pAddInt(3, 4);
    sum2 := pAddInt(3, 4);
    var pAddInt2 := Add;
    FunctionPointerAgrees(4, 5);
    sum3 := pAddInt2(4, 5);
  }
}
