/** Raw account bytes and the little-endian readers. */
module MarketBytes {
  import opened Prelude

  type byte = x: int | 0 <= x < 256

  /** The value of a little-endian byte string. */
  function Le(bs: seq<byte>): nat {
    if bs == [] then 0 else bs[0] + 256 * Le(bs[1..])
  }

  function Power256(n: nat): nat {
    if n == 0 then 1 else 256 * Power256(n - 1)
  }

  /** n little-endian bytes of v, as a writer would lay them down. */
  function Bytes(v: nat, n: nat): (bs: seq<byte>)
    ensures |bs| == n
  {
    if n == 0 then [] else [v % 256] + Bytes(v / 256, n - 1)
  }

  lemma {:induction false} LeOfBytes(v: nat, n: nat)
    requires v < Power256(n)
    ensures Le(Bytes(v, n)) == v
  {
    if n > 0 {
      LeOfBytes(v / 256, n - 1);
      assert Bytes(v, n)[1..] == Bytes(v / 256, n - 1);
    }
  }

  lemma {:induction false} BytesOfLe(bs: seq<byte>)
    ensures Bytes(Le(bs), |bs|) == bs && Le(bs) < Power256(|bs|)
  {
    if bs != [] {
      BytesOfLe(bs[1..]);
      assert Le(bs) % 256 == bs[0] && Le(bs) / 256 == Le(bs[1..]);
    }
  }

  lemma {:induction false} LeSplit(a: seq<byte>, b: seq<byte>)
    ensures Le(a + b) == Le(a) + Power256(|a|) * Le(b)
  {
    if a == [] {
      assert a + b == b;
    } else {
      assert (a + b)[1..] == a[1..] + b;
      LeSplit(a[1..], b);
      MulAssoc(Power256(|a| - 1), Le(b));
    }
  }

  lemma MulAssoc(p: nat, x: nat)
    ensures 256 * (p * x) == (256 * p) * x
  {
  }

  predicate InBounds(data: seq<byte>, offset: int, len: nat) {
    0 <= offset && offset + len <= |data|
  }

  /** The field of `len` bytes at `offset`. */
  function Field(data: seq<byte>, offset: int, len: nat): nat
    requires InBounds(data, offset, len)
  {
    Le(data[offset..offset + len])
  }

  /** `readU64LE`: None where the source throws. */
  method ReadU64LE(data: seq<byte>, offset: int) returns (value: Option<nat>)
    ensures value == if InBounds(data, offset, 8) then Some(Field(data, offset, 8)) else None
  {
    if offset < 0 || offset + 8 > |data| {
      return None;
    }
    var v: nat := 0;
    for i := 0 to 8
      invariant v == Le(data[offset..offset + i])
    {
      v := v + Power256(i) * data[offset + i];
      LeSplit(data[offset..offset + i], [data[offset + i]]);
      assert data[offset..offset + i] + [data[offset + i]] == data[offset..offset + i + 1];
      assert Le([data[offset + i]]) == data[offset + i];
    }
    return Some(v);
  }

  /** `readU128LE`: the low and the high half, each read as a u64. */
  method ReadU128LE(data: seq<byte>, offset: int) returns (value: Option<nat>)
    ensures value == if InBounds(data, offset, 16) then Some(Field(data, offset, 16)) else None
  {
    var lo := ReadU64LE(data, offset);
    var hi := ReadU64LE(data, offset + 8);
    if lo.None? || hi.None? {
      return None;
    }
    LeSplit(data[offset..offset + 8], data[offset + 8..offset + 16]);
    assert data[offset..offset + 8] + data[offset + 8..offset + 16] == data[offset..offset + 16];
    return Some(lo.value + Power256(8) * hi.value);
  }

  /** A field written somewhere and read back is the value written. */
  lemma {:induction false} WriteRead(data: seq<byte>, offset: nat, len: nat, v: nat)
    requires InBounds(data, offset, len) && v < Power256(len)
    ensures var written := data[..offset] + Bytes(v, len) + data[offset + len..];
            |written| == |data| && Field(written, offset, len) == v
  {
    LeOfBytes(v, len);
    var written := data[..offset] + Bytes(v, len) + data[offset + len..];
    assert written[offset..offset + len] == Bytes(v, len);
  }
}
