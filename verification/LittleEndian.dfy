/** Little-endian numbers on the wire. */
module LittleEndian {
  import opened Arith
  import opened Basics

  function Pow256(n: nat): (p: nat)
    ensures p > 0
  {
    if n == 0 then 1 else 256 * Pow256(n - 1)
  }

  lemma Pow256Values()
    ensures Pow256(1) == 0x100 && Pow256(2) == 0x1_0000 && Pow256(4) == 0x1_0000_0000 && Pow256(8) == TWO64
  {
    assert Pow256(2) == 0x1_0000;
    assert Pow256(4) == 0x1_0000_0000;
    assert Pow256(6) == 0x1_0000_0000_0000;
  }

  /** The low `n` bytes of a number, least significant first. */
  function Put(v: nat, n: nat): (b: Bytes)
    ensures |b| == n
    decreases v, n
  {
    if n == 0 then [] else [v % 256] + Put(v / 256, n - 1)
  }

  /** Byte `k` is the digit of weight 256^k. */
  lemma {:induction false} PutAt(v: nat, n: nat, k: nat)
    requires k < n
    ensures Put(v, n)[k] == v / Pow256(k) % 256
    decreases n
  {
    if k > 0 {
      PutAt(v / 256, n - 1, k - 1);
      DivDiv(v, 256, Pow256(k - 1));
    }
  }

  function Get(b: Bytes): nat {
    if b == [] then 0 else b[0] + 256 * Get(b[1..])
  }

  lemma {:induction false} GetPut(v: nat, n: nat)
    requires v < Pow256(n)
    ensures Get(Put(v, n)) == v
    decreases n
  {
    if n > 0 {
      GetPut(v / 256, n - 1);
      assert Put(v, n)[1..] == Put(v / 256, n - 1);
    }
  }

  lemma {:induction false} PutGet(b: Bytes)
    ensures Get(b) < Pow256(|b|) && Put(Get(b), |b|) == b
  {
    if b != [] {
      var rest := b[1..];
      PutGet(rest);
      assert Get(b) / 256 == Get(rest) && Get(b) % 256 == b[0];
      assert b == [b[0]] + rest;
    }
  }
}
