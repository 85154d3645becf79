/**
 * Vocabulary shared by the contract models: account addresses, byte strings,
 * the error-carrying result type, Rust's truncating integer division, and the
 * order-keeping "drop every occurrence of an id" filter that two contracts use
 * to rebuild their id lists.
 */
module Common {

  /** A Soroban account or contract address; only its identity matters. */
  type Address = string

  newtype Byte = b: int | 0 <= b < 256

  /** Soroban `Bytes`. */
  type Bytes = seq<Byte>

  datatype Option<T> = None | Some(value: T)

  /**
   * The outcome of a contract call: `Failure` stands for a panic (an
   * `assert!`, `panic!`, `expect` or `unwrap` that fails), after which the
   * host discards every write of the call.
   */
  datatype Result<T, E> = Success(value: T) | Failure(error: E)

  /**
   * Rust's `/` on signed integers rounds toward zero: the quotient has the
   * sign of the dividend, and the remainder `a - q * b` lies strictly between
   * `-b` and `b` with that sign as well.
   */
  function TruncDiv(a: int, b: int): (q: int)
    requires b > 0
    ensures a >= 0 ==> q >= 0
    ensures a <= 0 ==> q <= 0
    ensures a >= 0 ==> q * b <= a < q * b + b
    ensures a < 0 ==> q * b - b < a <= q * b
  {
    if a >= 0 then a / b else -((-a) / b)
  }

  /**
   * The list rebuilt by a loop that pushes every element of `xs` that is not
   * `x`, in order. Defined on the last element so that it follows such a loop.
   */
  function Without<T(==)>(xs: seq<T>, x: T): seq<T>
  {
    if xs == [] then []
    else Without(xs[..|xs| - 1], x) + (if xs[|xs| - 1] == x then [] else [xs[|xs| - 1]])
  }

  /**
   * The filtering loop itself: a new list receives, in order, every element
   * of `xs` other than `x`.
   */
  method RemoveAll<T(==)>(xs: seq<T>, x: T) returns (ys: seq<T>)
    ensures ys == Without(xs, x)
  {
    ys := [];
    for i := 0 to |xs|
      invariant ys == Without(xs[..i], x)
    {
      assert xs[..i + 1][..i] == xs[..i];
      if xs[i] != x {
        ys := ys + [xs[i]];
      }
    }
    assert xs[..|xs|] == xs;
  }

  /** `x` is gone and no other element is gained or lost. */
  lemma {:induction false} WithoutMultiset<T>(xs: seq<T>, x: T)
    ensures multiset(Without(xs, x)) == multiset(xs)[x := 0]
    ensures x !in Without(xs, x)
    ensures |Without(xs, x)| <= |xs|
  {
    if xs != [] {
      var init, last := xs[..|xs| - 1], xs[|xs| - 1];
      var kept := if last == x then [] else [last];
      assert xs == init + [last];
      assert multiset(xs) == multiset(init) + multiset{last};
      WithoutMultiset(init, x);
      assert Without(xs, x) == Without(init, x) + kept;
      assert multiset(Without(xs, x)) == multiset(Without(init, x)) + multiset(kept);
      assert multiset(kept) == multiset{last}[x := 0];
    }
  }

  /** What survives the filter: every element other than `x`. */
  lemma WithoutMembers<T>(xs: seq<T>, x: T)
    ensures forall y :: y in Without(xs, x) <==> y in xs && y != x
  {
    WithoutMultiset(xs, x);
    forall y
      ensures y in Without(xs, x) <==> y in xs && y != x
    {
      assert y in Without(xs, x) <==> y in multiset(Without(xs, x));
      assert y in xs <==> y in multiset(xs);
    }
  }

  /** Filtering distributes over concatenation, so the kept elements keep their order. */
  lemma {:induction false} WithoutConcat<T>(a: seq<T>, b: seq<T>, x: T)
    ensures Without(a + b, x) == Without(a, x) + Without(b, x)
    decreases |b|
  {
    if b == [] {
      assert a + b == a;
    } else {
      var init, last := b[..|b| - 1], b[|b| - 1];
      assert (a + b)[..|a + b| - 1] == a + init;
      WithoutConcat(a, init, x);
    }
  }

  /** A list that does not mention `x` is left exactly as it was. */
  lemma {:induction false} WithoutAbsent<T>(xs: seq<T>, x: T)
    requires x !in xs
    ensures Without(xs, x) == xs
  {
    if xs != [] {
      var init := xs[..|xs| - 1];
      assert xs == init + [xs[|xs| - 1]];
      WithoutAbsent(init, x);
    }
  }

  /**
   * Removing the one occurrence of `x` from `pre + [x] + post` leaves exactly
   * `pre + post`: every other id keeps its place relative to the others.
   */
  lemma WithoutSingle<T>(pre: seq<T>, x: T, post: seq<T>)
    requires x !in pre && x !in post
    ensures Without(pre + [x] + post, x) == pre + post
  {
    var ys := pre + [x];
    WithoutConcat(ys, post, x);
    WithoutConcat(pre, [x], x);
    assert [x][..0] == [];
    assert Without([x], x) == [];
    WithoutAbsent(pre, x);
    WithoutAbsent(post, x);
    assert Without(ys, x) == pre;
  }

  /** Rounding toward zero treats a value and its negation alike. */
  lemma TruncDivOdd(a: int, b: int)
    requires b > 0
    ensures TruncDiv(-a, b) == -TruncDiv(a, b)
  {
  }
}
