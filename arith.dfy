/** Mathematical (unbounded) factorial and Fibonacci numbers, against which the
    fixed-width C++ versions are specified, and the bounds that decide where the
    C++ versions stop being exact. */
module Arith {
  import opened MachineInt

  /** n! = 1 * 2 * ... * n, and 0! = 1 */
  function Fact(n: nat): (r: nat)
    ensures r >= 1
  {
    if n == 0 then 1 else n * Fact(n - 1)
  }

  lemma {:induction false} FactMonotone(m: nat, n: nat)
    requires m <= n
    ensures Fact(m) <= Fact(n)
  {
    if m < n {
      FactMonotone(m, n - 1);
      assert Fact(n) == n * Fact(n - 1) >= Fact(n - 1);
    }
  }

  /** 12! is the largest factorial a 32-bit `int` holds. */
  lemma FactFitsInt32(n: nat)
    requires n <= 12
    ensures Fact(n) <= MaxInt32
  {
    FactMonotone(n, 12);
    assert Fact(12) == 479001600;
  }

  /** ... and 13! is not: 12 is the exact bound. */
  lemma Fact13ExceedsInt32()
    ensures Fact(13) > MaxInt32
  {
    assert Fact(13) == 6227020800;
  }

  /** Fibonacci numbers 0, 1, 1, 2, 3, 5, 8, ... */
  function Fib(n: nat): nat
  {
    if n <= 1 then n else Fib(n - 1) + Fib(n - 2)
  }

  lemma {:induction false} FibMonotone(m: nat, n: nat)
    requires m <= n
    ensures Fib(m) <= Fib(n)
  {
    if m < n {
      FibMonotone(m, n - 1);
    }
  }

  /** Evaluation of Fib(45) and Fib(46), through stepping stones ten apart. */
  lemma FibValue46()
    ensures Fib(45) == 1134903170 && Fib(46) == 1836311903
  {
    assert Fib(20) == 6765 && Fib(21) == 10946;
    assert Fib(30) == 832040 && Fib(31) == 1346269;
    assert Fib(40) == 102334155 && Fib(41) == 165580141;
  }

  /** Fib(46) is the largest Fibonacci number a 32-bit `int` holds. */
  lemma FibFitsInt32(n: nat)
    requires n <= 46
    ensures Fib(n) <= MaxInt32
  {
    FibMonotone(n, 46);
    FibValue46();
  }

  /** ... and Fib(47) is not: 46 is the exact bound. */
  lemma Fib47ExceedsInt32()
    ensures Fib(47) > MaxInt32
  {
    FibValue46();
    assert Fib(47) == Fib(46) + Fib(45);
  }
}
