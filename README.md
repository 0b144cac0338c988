# cpp-demo core in Dafny

This project models the small functions with exact behaviour in the C++ teaching
collection cpp-demo and proves properties of them. The rest of the repository
demonstrates compiler and runtime mechanics, and is not modelled. The model has one
module per source file:

- `Recursion` (src/recursion_demo.cpp): the `unsigned int` recursive factorial. Its
  products wrap modulo 2^32.
- `Declarations` (src/declarations_demo.cpp): `S::sum_const`, `S::sum_constexpr`, and
  the constexpr `factorial` and `fibonacci`.
- `References` (src/reference_demo.cpp): `Add`, `Factorial` and `Swap` through
  reference parameters, and assignment through a local reference.
- `Pointers` (src/pointer_demo.cpp): `Add`, `AddVal`, `Swap` and `Factorial` through
  pointers, and writing through a pointer. Two pointer parameters may point to the
  same object.
- `Statements` (src/statements_demo.cpp): class `S` and the range-for and indexed
  loops over a `std::vector<S>`.
- `Functions` (src/functions_demo.cpp): `add`, `square`, `square_inlined`, the textual
  `SQUARE` macro, and calls through function pointers.
- `Templates` (src/templates_demo.cpp): `max`, `add`, `arrSum`, `arrMax`, `arrMinMax`,
  `sum`, `sum2` at `T = int`, and the `strcmp`-based `max<const char*>`.
- `Strings` (src/strings_demo.cpp): the `std::string` functions `combine`, `ToUpper`
  and `ToLower`. Each case function comes as a copying version and an in-place
  version.
- `CStrings` (src/strings_demo.cpp): `strlen`, `strcpy`, `strcat` and `strcmp`, plus
  `combine3` and its one-byte-short sibling `combine2`.
- `Operators` (src/operators_demo.cpp): class `Integer`, which owns a heap `int`,
  and the free `operator+` overloads.

Helper modules:

- `MachineInt` holds the 32-bit `int` and `unsigned int` types and the conversions
  between them.
- `Memory` holds `IntCell`, an `int` object in memory. It is what a pointer or a
  reference refers to.
- `Arith` holds the mathematical factorial and Fibonacci numbers. It also holds the
  bounds 12! ≤ INT_MAX < 13! and Fib(46) ≤ INT_MAX < Fib(47).

Integer width is explicit throughout:

- Signed `int` overflow is undefined behaviour in C++. Every `int` operation
  therefore requires its result to fit in 32 bits; this is what the code demands of
  its callers.
- `unsigned int` arithmetic wraps, and the model reduces it modulo 2^32.
- The constexpr `factorial` multiplies an `unsigned int` by an `int`. The product is
  therefore unsigned and wraps. The model proves that this factorial equals the
  `unsigned int` factorial of recursion_demo.cpp, read back as an `int`.

Class-shaped state is modelled with Dafny classes:

- The methods of `S` and `Integer` and the pointer functions state their new state
  with `old` and `fresh`.
- `Integer`'s storage is a nullable `IntCell`. It is null after a move. Copy
  assignment gives fresh storage, and self-assignment changes nothing.
- The accessors `Integer.GetValue`, `Integer.Equals`, `Integer.IsEmpty`,
  `S.GetValue` and `Pointers.Add` are plain reads of one or two fields. The rows
  below state their behaviour through the members that use them.
- The same holds for the one-expression functions `Functions.Add`,
  `Functions.Square`, `Functions.SquareInlined`, `Functions.SquareMacro`,
  `Functions.SquareMacroOfSum`,
  `Templates.Add`, `Declarations.SumConst` and `Declarations.SumConstexpr`.

## Model

| member | source | states |
|---|---|---|
| `Recursion.Factorial` | src/recursion_demo.cpp:8-13 | 0! is 1 and n! is n·(n−1)! in `unsigned int`; the result is the true n! modulo 2^32 |
| `Recursion.FactorialExact` | src/recursion_demo.cpp:6-13 | for n ≤ 12 the unsigned result is exactly n! = 1·2·…·n |
| `Recursion.FactorialWraps` | src/recursion_demo.cpp:8-12 | 13! no longer fits: the result is 1932053504, not 6227020800 |
| `Recursion.FactorialDemo` | src/recursion_demo.cpp:15-19 | factorial(0) = 1, factorial(1) = 1, factorial(5) = 120 |
| `Arith.FactFitsInt32` | src/reference_demo.cpp:69-74 | n! ≤ INT_MAX for every n ≤ 12, so the `int` factorial loops cannot overflow there |
| `Arith.Fact13ExceedsInt32` | src/reference_demo.cpp:69-74 | 13! > INT_MAX, so 12 is the exact bound for the `int` factorials |
| `Arith.FibFitsInt32` | src/declarations_demo.cpp:21-24 | Fib(n) ≤ INT_MAX for every n ≤ 46 |
| `Arith.Fib47ExceedsInt32` | src/declarations_demo.cpp:21-24 | Fib(47) > INT_MAX, so `fibonacci(47)` overflows `int` |
| `Declarations.SumsAgree` | src/declarations_demo.cpp:7-13 | `sum_const` and `sum_constexpr` are defined exactly when a + b fits in `int`, and both return a + b |
| `Declarations.Factorial` | src/declarations_demo.cpp:16-19 | the constexpr factorial (unsigned product, `int` result) equals the unsigned factorial converted to `int` |
| `Declarations.FactorialExact` | src/declarations_demo.cpp:16-19 | for n ≤ 12 the constexpr factorial is exactly n! |
| `Declarations.FactorialDemo` | src/declarations_demo.cpp:56-64 | factorial(0..3) = 1, 1, 2, 6; factorial(7) = 5040 and factorial(8) = 40320 are `int` constants |
| `Declarations.Fibonacci` | src/declarations_demo.cpp:21-24 | defined for n ≤ 46, where the `int` sum cannot overflow; the result is the n-th Fibonacci number (n for n ≤ 1) |
| `Declarations.FibonacciDemo` | src/declarations_demo.cpp:66-85 | fibonacci(0..10) = 0, 1, 1, 2, 3, 5, 8, 13, 21, 34, 55; fibonacci(10) ≠ 56; fibonacci(11) = 89 |
| `References.ReferenceDemo` | src/reference_demo.cpp:19-46 | a reference names its referent: after `rn1 = 2`, n1 is 2 |
| `References.Add` | src/reference_demo.cpp:64-66 | stores a + b into result (the sum must fit in `int`) |
| `References.Factorial` | src/reference_demo.cpp:69-74 | result = 1·2·…·a, which is 1 for a ≤ 0; the loop keeps result = (i−1)!; a ≤ 12 is needed to avoid `int` overflow |
| `References.Swap` | src/reference_demo.cpp:77-81 | the two values are exchanged |
| `References.TestAlgos` | src/reference_demo.cpp:83-97 | Add(2, 3) gives 5, Swap turns (2, 3) into (3, 2), Factorial(3) gives 6 |
| `Pointers.PointerDemo` | src/pointer_demo.cpp:13-31 | `*pInt1 = 2` changes n1 to 2, and reading `*pInt1` then yields 2 |
| `Pointers.AddVal` | src/pointer_demo.cpp:52-54 | *result becomes *a + *b and no other object changes |
| `Pointers.Swap` | src/pointer_demo.cpp:57-62 | *a and *b are exchanged; one object passed twice is unchanged |
| `Pointers.Factorial` | src/pointer_demo.cpp:65-70 | with distinct objects *result becomes (*a)! (1 for *a ≤ 0, *a ≤ 12); when a and result are the same object the loop re-reads the overwritten *a and the result is 1 |
| `Pointers.TestAlgos` | src/pointer_demo.cpp:72-83 | Add(&2, &3) is 5, AddVal stores 5, Swap gives (3, 2), Factorial of 3 stores 6 |
| `Functions.SquareInlinedAgrees` | src/functions_demo.cpp:58-70 | `square_inlined(x)` equals `square(x)` for every x whose square fits in `int`, and is never negative |
| `Functions.SquareMacroOfIncrement` | src/functions_demo.cpp:63-86 | SQUARE(n + 1) expands to n + 1*n + 1 = 2n + 1, which equals square(n + 1) only when n = 0 |
| `Functions.InlineFunctionDemo` | src/functions_demo.cpp:72-89 | square(3) = 9, SQUARE(3) = 9 (the macro on a single token), square_inlined(3) = 9, SQUARE(3 + 1) = 7 while square(4) = 16 |
| `Functions.FunctionPointerAgrees` | src/functions_demo.cpp:7-10 | a pointer to `add` is defined wherever `add` is and returns a + b |
| `Functions.FunctionPointerDemo` | src/functions_demo.cpp:98-111 | through a function pointer, plain or dereferenced, add(3, 4) is 7 and add(4, 5) is 9 |
| `Templates.Max` | src/templates_demo.cpp:10-12 | the result is at least both arguments and is one of them |
| `Templates.AddReturnsSum` | src/templates_demo.cpp:37-40 | at `T = int`, `add(t1, t2)` returns t1 + t2 whenever that sum fits in `int` |
| `Templates.ArrSum` | src/templates_demo.cpp:42-50 | returns the sum of arr[0..size), 0 when size is 0; only reads the array |
| `Templates.ArrMax` | src/templates_demo.cpp:52-62 | needs arr[0]; returns an element of arr[0..size) that no element exceeds (arr[0] when size is 0); only reads the array |
| `Templates.ArrMinMax` | src/templates_demo.cpp:65-77 | returns (first, second) with first ≤ every element ≤ second, both elements of the array, so first ≤ second |
| `Templates.Sum` | src/templates_demo.cpp:270-278 | returns the sum of arr[0..size); the `int` counter needs size ≤ INT_MAX |
| `Templates.Sum2` | src/templates_demo.cpp:282-290 | returns the sum of the whole array, whose size comes from its type |
| `Templates.NonTypeTemplateArgumentsDemo` | src/templates_demo.cpp:314-326 | sum and sum2 of {1, 2, 3} are both 6 |
| `Templates.MaxCString` | src/templates_demo.cpp:201-205 | the result is one of the arguments and is lexicographically not less than either of them |
| `Templates.MaxCStringDemo` | src/templates_demo.cpp:235-240 | max("A", "B") is "B" and max("C", "B") is "C" |
| `CStrings.StrcmpIsLexicographic` | src/templates_demo.cpp:204 | strcmp < 0 exactly when s1 precedes s2 lexicographically, = 0 exactly when they are equal, and swapping the arguments negates it |
| `CStrings.StrLen` | src/strings_demo.cpp:33 | strlen is the index of the first NUL: within the buffer, with no NUL before it |
| `CStrings.Strcpy` | src/strings_demo.cpp:35 | given room for src and a NUL, the buffer starts with src and a NUL, and the rest is untouched |
| `CStrings.Strcat` | src/strings_demo.cpp:36-37 | given a C string and room after it, src and a NUL are written from its NUL on, and nothing else changes |
| `CStrings.Combine3` | src/strings_demo.cpp:31-39 | every write stays in the fresh buffer of strlen(name)+1+strlen(surname)+1 chars, which ends up exactly name, ' ', surname, NUL |
| `CStrings.Combine2LastStrcatOverflows` | src/strings_demo.cpp:21-28 | in `combine2`'s buffer, one char shorter than `combine3`'s, the final strcat has no room: every surname char fits, and only its NUL would land at index \|buf\|, exactly one past the end |
| `CStrings.Combine2EmptySurnameOverflows` | src/strings_demo.cpp:21-27 | with an empty surname `combine2` already overflows at strcat(" ") |
| `CStrings.Combine2` | src/strings_demo.cpp:21-28 | `combine2`'s own calls on its fresh buffer of strlen(name)+1+strlen(surname) chars reach the state of the two lemmas above: with an empty surname, the second call strcat(" ") has no room; otherwise, the third call strcat(surname) has room for every char but its NUL |
| `Strings.Combine` | src/strings_demo.cpp:180-182 | the result is name, one space, then surname, of length \|name\| + \|surname\| + 1 |
| `Strings.ToUpperChar` | src/strings_demo.cpp:200-202 | a character changes exactly when it is a lower-case letter, and then becomes the same letter in upper case ('a' to 'A', …, 'z' to 'Z'); ',' and ' ' pass through |
| `Strings.ToLowerChar` | src/strings_demo.cpp:211-213 | a character changes exactly when it is an upper-case letter, and then becomes the same letter in lower case ('A' to 'a', …, 'Z' to 'z') |
| `Strings.CaseRoundTrip` | src/strings_demo.cpp:195-216 | toupper and tolower undo each other on letters |
| `Strings.ToUpper` | src/strings_demo.cpp:195-205 | returns a new string of the input's length whose char i is toupper of input char i; the input is not changed |
| `Strings.ToLower` | src/strings_demo.cpp:207-216 | returns a new string of the input's length whose char i is tolower of input char i |
| `Strings.ToUpperInPlace` | src/strings_demo.cpp:219-224 | rewrites the string in place, keeping its length, to what the copying ToUpper returns |
| `Strings.ToLowerInPlace` | src/strings_demo.cpp:227-232 | rewrites the string in place, keeping its length, to what the copying ToLower returns |
| `Strings.UpperStringIdempotent` | src/strings_demo.cpp:242-245 | ToUpper's result has no lower-case letter, applying it twice is applying it once, and it leaves upper-case text unchanged |
| `Strings.LowerStringOfUpperText` | src/strings_demo.cpp:250-251 | ToLower of text without lower-case letters has no upper-case letter, and ToUpper restores the text |
| `Strings.UpperOfLowerText` | src/strings_demo.cpp:237-240 | ToUpper of "originally, this was all in lower" is "ORIGINALLY, THIS WAS ALL IN LOWER" |
| `Strings.LowerOfUpperText` | src/strings_demo.cpp:250-251 | ToLower of "ORIGINALLY, THIS WAS ALL IN UPPER" is "originally, this was all in upper" |
| `Strings.TestStringConversionFunctions` | src/strings_demo.cpp:234-252 | both ToUpper overloads turn the lower-case text into "ORIGINALLY, THIS WAS ALL IN LOWER", ToUpper leaves the upper-case text unchanged, and ToLower turns it into "originally, this was all in upper", which raises back |
| `Statements.S.constructor` | src/statements_demo.cpp:12-14 | holds n |
| `Statements.S.Copy` | src/statements_demo.cpp:16-18 | the copy holds the same value |
| `Statements.S.SetValue` | src/statements_demo.cpp:21 | replaces the held value and nothing else |
| `Statements.ByValueLoop` | src/statements_demo.cpp:38-41 | reads every element's value, in order, through a copy; the vector is not changed |
| `Statements.AddTenByReference` | src/statements_demo.cpp:46-52 | every element gains 10 in place, in order, and nothing else changes |
| `Statements.ConstReferenceLoop` | src/statements_demo.cpp:58-65 | reads every element's value in order and changes nothing |
| `Statements.IndexedLoop` | src/statements_demo.cpp:77-79 | visits i = 0 .. size−1 in order, each `at(i)` within bounds, and reads each value |
| `Statements.RangeBasedForLoopDemo` | src/statements_demo.cpp:25-81 | on {S(1), S(2), S(3)} the reads see [1, 2, 3], then [11, 12, 13] after the reference loop |
| `Operators.Integer.constructor` | src/operators_demo.cpp:10-13 | owns fresh storage holding 0 |
| `Operators.Integer.FromInt` | src/operators_demo.cpp:15-18 | owns fresh storage holding n |
| `Operators.Integer.Copy` | src/operators_demo.cpp:20-23 | deep copy: fresh storage holding the other's value |
| `Operators.Integer.Move` | src/operators_demo.cpp:25-29 | takes over the other's storage and leaves the other empty (null) |
| `Operators.Integer.SetValue` | src/operators_demo.cpp:36-43 | owns fresh storage holding n, so a later GetValue returns n; GetValue needs a non-empty object |
| `Operators.Integer.PreIncrement` | src/operators_demo.cpp:58-61 | adds 1 to the held value in place and returns the same object |
| `Operators.Integer.PostIncrement` | src/operators_demo.cpp:68-72 | returns a new object with its own storage holding the old value, and adds 1 to this object's value |
| `Operators.Integer.CopyAssign` | src/operators_demo.cpp:84-91 | from another object, takes its value into fresh storage (the other must hold a value, as it is dereferenced); self-assignment does nothing, even on an emptied object; the other's storage is unchanged |
| `Operators.Integer.MoveAssign` | src/operators_demo.cpp:94-102 | takes over the other's storage and empties the other; self-move changes nothing |
| `Operators.Plus` | src/operators_demo.cpp:115-119 | a new Integer holding n1 + n2; the operands are not changed |
| `Operators.PlusInt` | src/operators_demo.cpp:121-125 | a new Integer holding n1 + n2 for an `int` n1; n2 is not changed |
| `Operators.OperatorOverloadingDemo` | src/operators_demo.cpp:161-202 | n1+n2 is 3, ++n3 gives 4, n3++ gives 5, (n3++) yields 5 and leaves 6, n3 == Integer(6) with separate storage, n5 = n4 copies 6, n5+1 is 7, 1+n6 is 8 |
| `Operators.MoveDemo` | src/operators_demo.cpp:84-102 | a moved value arrives intact and the source is left empty; moving an object into itself keeps its value; copy-assigning an emptied object to itself leaves it empty |

## Left out

- Console, file and string-stream I/O is not modelled. The loops' printing becomes
  the sequences of values they read. The stdin reads in `show_problems` and
  `std_string_combine_demo` are left out, and so are `operator<<`, `operator>>` and
  `Integer::operator()`.
- `c_strings_demo::combine` returns the address of a local array. Its result is
  undefined, so there is nothing to state.
- `delete` and object lifetimes are not modelled: storage is never released. The
  model does not capture destructors, double frees or leaks.
- The float and double overloads and instantiations are left out, because floating
  point is outside the model. This covers `max(float, float)`, `add(double, double)`,
  the `extern "C"` float `add`, and `introduction::demo`.
- The address-comparing `max<const char*>` is left out: its result depends on where
  the compiler places the literals. The `template_arg_deduction` demo and
  `print_size<N>` are left out: their only run-time effect is printing type names or
  the size; the `max` results are discarded, and apart from the printing that `max`
  computes what the modelled template `max` does.
- `Templates.Max` is modelled at `int` only. On a tie the template returns its second
  argument. For `int` that is the same value, so the contract does not tell the two
  arguments apart.
- The case functions follow the "C" locale: only ASCII letters change. Locale tables
  and characters with negative `char` values are not modelled.
- `CStrings.Strcmp` returns the difference of the first differing character codes.
  The C standard fixes only the sign, and only the sign is used.
- `size_t` is an unbounded `nat`. Sizes are never near 2^64 here.
- main.cpp is not part of this model: `main` calls `declarations_demo::run()` under a
  fixed `if (true)`, and has no logic of its own to verify.
