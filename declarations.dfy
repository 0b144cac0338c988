/** Model of src/declarations_demo.cpp: `S::sum_const`, `S::sum_constexpr` and the
    recursive constexpr `factorial` and `fibonacci`. */
module Declarations {
  import opened MachineInt
  import opened Arith
  import Recursion

  /** `static const int sum_const(int a, int b)`; the sum must fit in `int`. */
  function SumConst(a: Int32, b: Int32): Int32
    requires InInt32(a + b)
  {
    a + b
  }

  /** `static constexpr int sum_constexpr(int a, int b)`; same value, usable in
      constant expressions. */
  function SumConstexpr(a: Int32, b: Int32): Int32
    requires InInt32(a + b)
  {
    a + b
  }

  /** Both sums are defined exactly when a + b fits in `int`, and then agree with
      each other and with the mathematical sum. */
  lemma SumsAgree(a: Int32, b: Int32)
    requires InInt32(a + b)
    ensures SumConst(a, b) == SumConstexpr(a, b) == a + b
  {
  }

  /** `constexpr int factorial(const unsigned int n)`: `n * factorial(n - 1)` multiplies
      an `unsigned int` by an `int`, so the `int` is converted to `unsigned int`, the
      product wraps modulo 2^32, and the result is converted back to `int` on return.
      The outcome is the `unsigned int` factorial of recursion_demo read as an `int`. */
  function Factorial(n: UInt32): (r: Int32)
    ensures r == ToInt32(Recursion.Factorial(n))
  {
    if n == 0 then 1 else ToInt32(ToUInt32(n * ToUInt32(Factorial(n - 1))))
  }

  /** Up to 12! (so for 7! and 8!, which the demo binds to `int` constants) the value
      is the exact factorial. */
  lemma FactorialExact(n: UInt32)
    requires n <= 12
    ensures Factorial(n) == Fact(n)
  {
    Recursion.FactorialExact(n);
    FactFitsInt32(n);
  }

  /** The asserts of `factorial_demo`, and the two constants it computes. */
  lemma FactorialDemo()
    ensures Factorial(0) == 1 && Factorial(1) == 1 && Factorial(2) == 2 && Factorial(3) == 6
    ensures Factorial(7) == 5040 && Factorial(8) == 40320
  {
    FactorialExact(3);
    FactorialExact(7);
    FactorialExact(8);
    assert Fact(8) == 40320;
  }

  /** `constexpr int fibonacci(const unsigned int n)`: n for n <= 1, otherwise the
      `int` sum of the two previous numbers. That sum overflows (undefined behaviour,
      and no constant expression) from n = 47 on, so the caller must keep n <= 46;
      there the result is the n-th Fibonacci number. */
  function Fibonacci(n: UInt32): (r: Int32)
    requires n <= 46
    ensures r == Fib(n)
  {
    if n <= 1 then n
    else
      FibFitsInt32(n);
      Fibonacci(n - 1) + Fibonacci(n - 2)
  }

  /** The asserts of `fibonacci_demo`: fibonacci(0..10) = 0, 1, 1, 2, 3, 5, 8, 13,
      21, 34, 55, the commented-out `fibonacci(10) == 56` is false, and
      fibonacci(11) = 89 is an `int` constant. */
  lemma FibonacciDemo()
    ensures Fibonacci(0) == 0 && Fibonacci(1) == 1 && Fibonacci(2) == 1
    ensures Fibonacci(3) == 2 && Fibonacci(4) == 3 && Fibonacci(5) == 5
    ensures Fibonacci(6) == 8 && Fibonacci(7) == 13 && Fibonacci(8) == 21
    ensures Fibonacci(9) == 34 && Fibonacci(10) == 55 && Fibonacci(10) != 56
    ensures Fibonacci(11) == 89
  {
  }
}
