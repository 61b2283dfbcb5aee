/** Small shared vocabulary: optional values, results, Go's fixed-width unsigned integers. */
module Common {

  datatype Option<T> = None | Some(value: T)

  datatype Result<T, E> = Ok(value: T) | Err(error: E)

  /** 2^64: one more than the largest Go `uint64`. */
  const U64: nat := 0x1_0000_0000_0000_0000

  /** A Go `uint64` computation reduced modulo 2^64, as `x++` on a `uint64` behaves. */
  function Wrap64(x: nat): (r: nat)
    ensures r < U64
    ensures x < U64 ==> r == x
    ensures x == U64 ==> r == 0
  {
    x % U64
  }

  /** Wrapping the successor of a wrapped value is wrapping the successor. */
  lemma WrapSucc(x: nat)
    ensures Wrap64(Wrap64(x) + 1) == Wrap64(x + 1)
  {
    var q := x / U64;
    assert x == q * U64 + Wrap64(x);
    if Wrap64(x) + 1 == U64 {
      assert x + 1 == (q + 1) * U64;
    } else {
      assert x + 1 == q * U64 + (Wrap64(x) + 1);
    }
  }

  /** The larger of two integers, as go-ethereum's `math.BigMax`. */
  function Max(a: int, b: int): (m: int)
    ensures m >= a && m >= b
    ensures m == a || m == b
  {
    if a < b then b else a
  }
}
