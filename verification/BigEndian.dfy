/** Fixed-width big-endian numbers, as `put_u32`, `from_be_bytes` and `as_bytes` use them. */
module BigEndian {
  import opened Types

  function Pow256(n: nat): (p: nat)
    ensures 1 <= p
  {
    if n == 0 then 1 else 256 * Pow256(n - 1)
  }

  /** The low `len` bytes of n, most significant first. */
  function ToBE(n: nat, len: nat): (s: Bytes)
    ensures |s| == len
  {
    if len == 0 then [] else ToBE(n / 256, len - 1) + [n % 256]
  }

  function FromBE(s: Bytes): (n: nat)
    ensures n < Pow256(|s|)
  {
    if s == [] then 0 else 256 * FromBE(s[..|s| - 1]) + s[|s| - 1]
  }

  lemma {:induction false} FromToBE(n: nat, len: nat)
    requires n < Pow256(len)
    ensures FromBE(ToBE(n, len)) == n
  {
    if len > 0 {
      FromToBE(n / 256, len - 1);
      assert ToBE(n, len)[..len - 1] == ToBE(n / 256, len - 1);
    }
  }

  lemma {:induction false} ToFromBE(s: Bytes)
    ensures ToBE(FromBE(s), |s|) == s
  {
    if s != [] {
      ToFromBE(s[..|s| - 1]);
      assert s == s[..|s| - 1] + [s[|s| - 1]];
    }
  }

  /** A number is zero exactly when all its bytes are. */
  lemma {:induction false} ZeroBytes(s: Bytes)
    ensures FromBE(s) == 0 <==> forall i :: 0 <= i < |s| ==> s[i] == 0
  {
    if s != [] {
      ZeroBytes(s[..|s| - 1]);
      assert forall i :: 0 <= i < |s| - 1 ==> s[..|s| - 1][i] == s[i];
    }
  }

  lemma {:induction false} Pow256Add(a: nat, b: nat)
    ensures Pow256(a + b) == Pow256(a) * Pow256(b)
  {
    if a > 0 {
      Pow256Add(a - 1, b);
      assert Pow256(a + b) == 256 * Pow256(a - 1 + b);
    }
  }

  /** The widths in use: the bounds of the word types are powers of 256. */
  lemma Widths()
    ensures Pow256(1) == 0x100
    ensures Pow256(2) == 0x1_0000
    ensures Pow256(4) == 0x1_0000_0000
    ensures Pow256(8) == 0x1_0000_0000_0000_0000
    ensures Pow256(16) == 0x1_0000_0000_0000_0000_0000_0000_0000_0000
    ensures Pow256(32) ==
            0x1_0000_0000_0000_0000_0000_0000_0000_0000_0000_0000_0000_0000_0000_0000_0000_0000
  {
    Pow256Add(1, 1);
    Pow256Add(2, 2);
    Pow256Add(4, 4);
    Pow256Add(8, 8);
    Pow256Add(16, 16);
  }
}
