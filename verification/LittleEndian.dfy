/** Little-endian numbers of any width. */
module LittleEndian {
  import opened Words

  function Le(v: nat, n: nat): (b: seq<Byte>)
    ensures |b| == n
  {
    if n == 0 then [] else [(v % 256) as Byte] + Le(v / 256, n - 1)
  }

  function FromLe(b: seq<Byte>): nat {
    if b == [] then 0 else b[0] as nat + 256 * FromLe(b[1..])
  }

  /** How many numbers fit in `n` bytes. */
  function Limit(n: nat): (limit: nat)
    ensures limit > 0
  {
    if n == 0 then 1 else 256 * Limit(n - 1)
  }

  lemma Limits()
    ensures Limit(2) == U16_LIMIT && Limit(4) == U32_LIMIT && Limit(8) == U64_LIMIT
  {
    assert Limit(2) == 65536;
    assert Limit(4) == 65536 * Limit(2);
    assert Limit(6) == 65536 * Limit(4);
    assert Limit(8) == 65536 * Limit(6);
  }

  /** Reading what was written gives the number back if it fits. */
  lemma {:induction false} Reads(v: nat, n: nat)
    requires v < Limit(n)
    ensures FromLe(Le(v, n)) == v
  {
    if n > 0 {
      Reads(v / 256, n - 1);
      assert Le(v, n)[1..] == Le(v / 256, n - 1);
    }
  }

  /** Writing what was read gives the bytes back. */
  lemma {:induction false} Writes(b: seq<Byte>)
    ensures FromLe(b) < Limit(|b|) && Le(FromLe(b), |b|) == b
  {
    if b != [] {
      Writes(b[1..]);
      assert [b[0]] + b[1..] == b;
    }
  }
}
