/** Octets and the big-endian unsigned reading of an octet string, shared by
    the long-form length decoder and the integer display rule. */
module Octets {

  /** One octet of DER input. */
  type byte = x: int | 0 <= x < 256

  /** Appending is associative (stated once, so that proofs need not rediscover it element by element). */
  lemma AppendAssoc<T>(a: seq<T>, b: seq<T>, c: seq<T>)
    ensures (a + b) + c == a + (b + c)
  {
  }

  /** 256 to the power k: one more than the largest value k octets can hold. */
  function Pow256(k: nat): (p: nat)
    ensures p >= 1
  {
    if k == 0 then 1 else 256 * Pow256(k - 1)
  }

  /** The unsigned big-endian value of `s`: each octet multiplies what came
      before by 256 and adds itself (`length = length*256 + b`). */
  function BigEndian(s: seq<byte>): nat
  {
    if s == [] then 0 else BigEndian(s[..|s| - 1]) * 256 + s[|s| - 1]
  }

  /** The k-octet big-endian encoding of n (the low k octets of n). */
  function BigEndianBytes(n: nat, k: nat): (s: seq<byte>)
    ensures |s| == k
  {
    if k == 0 then [] else BigEndianBytes(n / 256, k - 1) + [n % 256]
  }

  /** The fewest octets that hold n (at least one). */
  function MinimalOctets(n: nat): (k: nat)
    ensures k >= 1
  {
    if n < 256 then 1 else 1 + MinimalOctets(n / 256)
  }

  /** k octets always hold a value below 256^k. */
  lemma {:induction false} BigEndianBound(s: seq<byte>)
    ensures BigEndian(s) < Pow256(|s|)
  {
    if s != [] {
      var init := s[..|s| - 1];
      BigEndianBound(init);
      assert BigEndian(init) + 1 <= Pow256(|init|);
      assert BigEndian(s) < (BigEndian(init) + 1) * 256;
    }
  }

  /** Reading back a big-endian encoding gives the encoded value. */
  lemma {:induction false} BigEndianRoundTrip(n: nat, k: nat)
    requires n < Pow256(k)
    ensures BigEndian(BigEndianBytes(n, k)) == n
  {
    if k > 0 {
      var s := BigEndianBytes(n, k);
      assert s[..|s| - 1] == BigEndianBytes(n / 256, k - 1);
      BigEndianRoundTrip(n / 256, k - 1);
    }
  }

  /** The minimal octet count is enough to hold the value. */
  lemma {:induction false} MinimalOctetsHold(n: nat)
    ensures n < Pow256(MinimalOctets(n))
  {
    if n >= 256 {
      MinimalOctetsHold(n / 256);
    }
  }
}
