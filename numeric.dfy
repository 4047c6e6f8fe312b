/**
 * Fixed-width integer helpers and the Option/Result wrappers shared by the
 * model of the rendering library.
 */
module Numeric {
  const TWO_32: int := 0x1_0000_0000
  /** std::numeric_limits<uint32_t>::max(), the library's "invalid index". */
  const UINT32_MAX: int := 0xFFFF_FFFF

  type uint8 = x: int | 0 <= x < 256
  type uint32 = x: int | 0 <= x < 0x1_0000_0000
  /** A byte of buffer memory. */
  type byte = uint8

  datatype Option<T> = None | Some(value: T)

  /** The C++ exceptions the modelled operations can raise. */
  datatype Error = OutOfRange | InvalidArgument | RuntimeError

  datatype Result<T> = Ok(value: T) | Err(error: Error)

  /** `++x` on a uint32_t: the successor, wrapping to 0 after UINT32_MAX. */
  function Inc32(x: uint32): (r: uint32)
    ensures x < UINT32_MAX ==> r == x + 1
    ensures x == UINT32_MAX ==> r == 0
  {
    (x + 1) % TWO_32
  }

  /** Truncation of an unbounded non-negative value to uint32_t. */
  function Trunc32(x: nat): (r: uint32)
    ensures x < TWO_32 ==> r == x
    ensures x >= TWO_32 ==> r < x
  {
    x % TWO_32
  }

  function Min(a: int, b: int): int { if a <= b then a else b }

  function Max(a: int, b: int): int { if a >= b then a else b }

  /** `n` copies of `v`. */
  function Fill<T>(n: nat, v: T): (r: seq<T>)
    ensures |r| == n && forall i :: 0 <= i < n ==> r[i] == v
  {
    seq(n, _ => v)
  }

  /** `s` with the window starting at `off` overwritten by `d`. */
  function Splice<T>(s: seq<T>, off: nat, d: seq<T>): (r: seq<T>)
    requires off + |d| <= |s|
    ensures |r| == |s|
    ensures r[off..off + |d|] == d
    ensures r[..off] == s[..off] && r[off + |d|..] == s[off + |d|..]
  {
    s[..off] + d + s[off + |d|..]
  }

  /** Multiplication by a natural number is monotone. */
  lemma MulMonotone(a: nat, b: nat, c: nat)
    requires b <= c
    ensures a * b <= a * c
  {
    assert a * c == a * b + a * (c - b);
  }

  /** Dividing q * count + r by count leaves remainder r. */
  lemma ModOfSum(q: nat, count: nat, r: nat)
    requires r < count
    ensures (q * count + r) % count == r
  {
    var n := q * count + r;
    var q', r' := n / count, n % count;
    assert q' * count + r' == q * count + r;
    if q' < q {
      MulMonotone(count, q' + 1, q);
      assert count * (q' + 1) == q' * count + count;
    } else if q < q' {
      MulMonotone(count, q + 1, q');
    }
  }
}
