/** Small shared vocabulary of the whole model. */
module Common {

  /** A value that may be absent: JavaScript's `undefined`/`null` next to a present value. */
  datatype Option<+T> = None | Some(value: T) {

    /** The value, or `default` when absent (the `??` operator). */
    function GetOr(default: T): T {
      match this
      case Some(v) => v
      case None => default
    }
  }

  function Min(a: int, b: int): int {
    if a <= b then a else b
  }

  function Max(a: int, b: int): int {
    if a <= b then b else a
  }

  /** `Math.ceil(n / size)` for a positive size. */
  function CeilDiv(n: nat, size: nat): nat
    requires size > 0
  {
    (n + size - 1) / size
  }

  lemma MulLe(a: nat, b: nat, c: nat)
    requires a <= b
    ensures a * c <= b * c
  {
  }

  /** The quotient is the one `q` whose multiples bracket `x`. */
  lemma DivUnique(x: nat, size: nat, q: nat)
    requires size > 0 && q * size <= x < (q + 1) * size
    ensures x / size == q
  {
    var d, r := x / size, x % size;
    assert x == d * size + r && 0 <= r < size;
    if d > q {
      MulLe(q + 1, d, size);
      assert false;
    } else if d < q {
      assert (d + 1) * size == d * size + size;
      MulLe(d + 1, q, size);
      assert false;
    }
  }

  lemma DivMul(k: nat, size: nat)
    requires size > 0
    ensures (k * size) / size == k
  {
    assert (k + 1) * size == k * size + size;
    DivUnique(k * size, size, k);
  }

  /** The number of blocks of `size` that start at the offsets `i, i + size, …` below `n`. */
  function Blocks(n: nat, size: nat, i: nat): nat
    requires size > 0
    decreases n - i
  {
    if i >= n then 0 else 1 + Blocks(n, size, i + size)
  }

  /** Removing one block of `size` from `x` removes one from `ceil(x / size)`. */
  lemma CeilStep(x: nat, size: nat)
    requires 0 < size && 0 < x
    ensures CeilDiv(x, size) == 1 + (if x <= size then 0 else CeilDiv(x - size, size))
  {
    if x <= size {
      DivUnique(x + size - 1, size, 1);
    } else {
      var q := CeilDiv(x - size, size);
      var y := x - size + size - 1;
      assert q * size <= y < (q + 1) * size by {
        assert y / size == q;
        assert y == q * size + y % size;
      }
      assert (q + 1) * size == q * size + size;
      assert (q + 2) * size == (q + 1) * size + size;
      DivUnique(x + size - 1, size, q + 1);
    }
  }

  /** The blocks from offset `i` are `ceil((n - i) / size)`. */
  lemma {:induction false} BlocksCeil(n: nat, size: nat, i: nat)
    requires size > 0 && i <= n
    ensures Blocks(n, size, i) == CeilDiv(n - i, size)
    decreases n - i
  {
    if i < n {
      CeilStep(n - i, size);
      if i + size <= n {
        BlocksCeil(n, size, i + size);
      }
    } else {
      assert (size - 1) / size == 0;
    }
  }
}
