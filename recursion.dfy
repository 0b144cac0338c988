/** Model of src/recursion_demo.cpp: the recursive `unsigned int factorial`. */
module Recursion {
  import opened MachineInt
  import opened Arith

  /** `unsigned int factorial(const unsigned int n)`: 0! = 1, n! = n * (n - 1)!,
      each product reduced modulo 2^32 as `unsigned int` arithmetic does. The result
      is the true factorial modulo 2^32. */
  function Factorial(n: UInt32): (r: UInt32)
    ensures r == Fact(n) % TwoTo32
  {
    if n == 0 then 1
    else
      MulMod(n, Fact(n - 1));
      ToUInt32(n * Factorial(n - 1))
  }

  /** Reducing a factor modulo 2^32 before multiplying does not change the product
      modulo 2^32. */
  lemma MulMod(a: nat, b: nat)
    ensures (a * (b % TwoTo32)) % TwoTo32 == (a * b) % TwoTo32
  {
    var q, s := b / TwoTo32, b % TwoTo32;
    assert b == q * TwoTo32 + s;
    assert a * b == (a * q) * TwoTo32 + a * s;
    ModAddMultiple(a * q, a * s);
  }

  lemma ModAddMultiple(k: int, y: int)
    ensures (k * TwoTo32 + y) % TwoTo32 == y % TwoTo32
  {
    var t, s := y / TwoTo32, y % TwoTo32;
    assert k * TwoTo32 + y == (k + t) * TwoTo32 + s;
  }

  /** Up to 12! the unsigned result is the exact factorial. */
  lemma FactorialExact(n: UInt32)
    requires n <= 12
    ensures Factorial(n) == Fact(n)
  {
    FactFitsInt32(n);
  }

  /** 13! = 6227020800 no longer fits: the result has wrapped around. */
  lemma FactorialWraps()
    ensures Factorial(13) == 1932053504 != Fact(13)
  {
    assert Fact(13) == 6227020800;
  }

  /** The values `factorial_demo` prints: 0! = 1, 1! = 1, 5! = 120. */
  lemma FactorialDemo()
    ensures Factorial(0) == 1 && Factorial(1) == 1 && Factorial(5) == 120
  {
    FactorialExact(5);
    assert Fact(5) == 120;
  }
}
