/** get_factorial of D1_Python_Basics_P1/Factorial.py: structural recursion
    with a guard that rejects negative arguments. */
module Factorial {
  import opened Results

  const NegativeMessage := "Factorial is not defined for negative numbers."

  /** The ascending product lo * (lo + 1) * ... * hi, and 1 when lo > hi. */
  function ProductFrom(lo: nat, hi: nat): nat
    decreases hi + 1 - lo
  {
    if lo > hi then 1 else lo * ProductFrom(lo + 1, hi)
  }

  /** get_factorial(n): a ValueError for negative n, 1 for 0, and otherwise
      n times the factorial of n - 1. The recursion ends because n decreases
      by one towards the base case 0. */
  function GetFactorial(n: int): (r: Result<nat>)
    ensures r.Err? <==> n < 0
    ensures r.Err? ==> r.error == ValueError(NegativeMessage)
    ensures r.Ok? ==> r.value >= 1
    decreases if n < 0 then 0 else n
  {
    if n < 0 then Err(ValueError(NegativeMessage))
    else if n == 0 then Ok(1)
    else
      var prev := GetFactorial(n - 1).value;
      assert n * prev >= prev;
      Ok(n * prev)
  }

  /** Extending an ascending product by one factor at the top. */
  lemma {:induction false} ProductFromExtend(lo: nat, hi: nat)
    requires lo <= hi + 1
    ensures ProductFrom(lo, hi + 1) == ProductFrom(lo, hi) * (hi + 1)
    decreases hi + 1 - lo
  {
    if lo <= hi {
      var inner := ProductFrom(lo + 1, hi);
      ProductFromExtend(lo + 1, hi);
      assert ProductFrom(lo + 1, hi + 1) == inner * (hi + 1);
      MulAssociates(lo, inner, hi + 1);
    } else {
      assert ProductFrom(hi + 2, hi + 1) == 1;
    }
  }

  lemma MulAssociates(a: int, b: int, c: int)
    ensures a * (b * c) == (a * b) * c
  {
  }

  /** The factorial of n is the product 1 * 2 * ... * n. */
  lemma {:induction false} FactorialIsProduct(n: nat)
    ensures GetFactorial(n) == Ok(ProductFrom(1, n))
  {
    if n > 0 {
      var prev := ProductFrom(1, n - 1);
      FactorialIsProduct(n - 1);
      ProductFromExtend(1, n - 1);
      assert GetFactorial(n) == Ok(n * prev);
      assert ProductFrom(1, n) == prev * n;
    }
  }
}
