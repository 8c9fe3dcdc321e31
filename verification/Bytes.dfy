/** Byte strings, and integers written big- or little-endian. */
module Bytes {
  import opened Lists
  import opened Amounts

  type u8 = b: int | 0 <= b < 256

  /** Reading bytes either gives a value, or returns an error, or panics on a short slice. */
  datatype Parse<+T> = Parsed(value: T) | Malformed | Panicked

  function Pow256(n: nat): (r: nat)
    ensures r >= 1
  {
    if n == 0 then 1 else 256 * Pow256(n - 1)
  }

  /** The last `len` bytes of `n`, most significant first. */
  function ToBe(n: nat, len: nat): (r: seq<u8>)
    ensures |r| == len
  {
    if len == 0 then [] else ToBe(n / 256, len - 1) + [n % 256]
  }

  function FromBe(bs: seq<u8>): (r: nat) {
    if bs == [] then 0 else 256 * FromBe(bs[..|bs| - 1]) + bs[|bs| - 1]
  }

  /** The last `len` bytes of `n`, least significant first. */
  function ToLe(n: nat, len: nat): (r: seq<u8>)
    ensures |r| == len
  {
    if len == 0 then [] else [n % 256] + ToLe(n / 256, len - 1)
  }

  function FromLe(bs: seq<u8>): (r: nat) {
    if bs == [] then 0 else bs[0] + 256 * FromLe(bs[1..])
  }

  // ---------------------------------------------------------------- integers

  lemma {:induction false} BeBound(bs: seq<u8>)
    ensures FromBe(bs) < Pow256(|bs|)
  {
    if bs != [] {
      BeBound(bs[..|bs| - 1]);
    }
  }

  /** Taking the last byte off first, and then the modulus, is taking the modulus. */
  lemma ModStep(n: nat, p: nat)
    requires p >= 1
    ensures 256 * (n / 256 % p) + n % 256 == n % (256 * p)
  {
    var m := n / 256;
    var q, r := m / p, m % p;
    assert m == q * p + r && 256 * m + n % 256 == n;
    assert n == 256 * (q * p) + 256 * r + n % 256;
    assert 256 * (q * p) == q * (256 * p);
    FloorUnique(q, n, 256 * p);
    assert n == (n / (256 * p)) * (256 * p) + n % (256 * p);
  }

  lemma {:induction false} BeReads(n: nat, len: nat)
    ensures FromBe(ToBe(n, len)) == n % Pow256(len)
  {
    if len > 0 {
      BeReads(n / 256, len - 1);
      assert ToBe(n, len)[..len - 1] == ToBe(n / 256, len - 1);
      ModStep(n, Pow256(len - 1));
    }
  }

  lemma {:induction false} LeReads(n: nat, len: nat)
    ensures FromLe(ToLe(n, len)) == n % Pow256(len)
  {
    if len > 0 {
      LeReads(n / 256, len - 1);
      ModStep(n, Pow256(len - 1));
    }
  }

  /** Little-endian is big-endian read backwards. */
  lemma {:induction false} LeIsReversedBe(bs: seq<u8>)
    ensures FromLe(bs) == FromBe(Reverse(bs))
  {
    if bs != [] {
      LeIsReversedBe(bs[1..]);
      assert Reverse(bs)[..|bs| - 1] == Reverse(bs[1..]);
    }
  }

  /** And in big-endian the first byte weighs most. */
  lemma BeFirstByte(b: u8, bs: seq<u8>)
    ensures FromBe([b] + bs) == b * Pow256(|bs|) + FromBe(bs)
    ensures FromBe([1, 0]) == 256 && FromLe([1, 0]) == 1
  {
    BeConcat([b], bs);
    assert FromBe([b]) == b by {
      assert [b][..0] == [];
    }
    assert [1, 0][..1] == [1] && [1][..0] == [] && [1, 0][1..] == [0];
  }

  lemma {:induction false} BeWrites(bs: seq<u8>)
    ensures ToBe(FromBe(bs), |bs|) == bs
  {
    if bs != [] {
      BeWrites(bs[..|bs| - 1]);
      assert FromBe(bs) / 256 == FromBe(bs[..|bs| - 1]) && FromBe(bs) % 256 == bs[|bs| - 1];
    }
  }

  lemma {:induction false} LeWrites(bs: seq<u8>)
    ensures ToLe(FromLe(bs), |bs|) == bs && FromLe(bs) < Pow256(|bs|)
  {
    if bs != [] {
      LeWrites(bs[1..]);
      assert FromLe(bs) / 256 == FromLe(bs[1..]) && FromLe(bs) % 256 == bs[0];
    }
  }

  /** The last bytes of a big-endian integer are those of a shorter one. */
  lemma {:induction false} BeLast(n: nat, len: nat, k: nat)
    requires k <= len
    ensures ToBe(n, len)[len - k..] == ToBe(n, k)
  {
    if k > 0 {
      BeLast(n / 256, len - 1, k - 1);
      assert ToBe(n, len)[len - k..] == ToBe(n / 256, len - 1)[len - k..] + [n % 256];
    }
  }

  lemma {:induction false} BeConcat(a: seq<u8>, b: seq<u8>)
    ensures FromBe(a + b) == FromBe(a) * Pow256(|b|) + FromBe(b)
  {
    if b == [] {
      assert a + b == a;
    } else {
      var init := b[..|b| - 1];
      BeConcat(a, init);
      assert (a + b)[..|a + b| - 1] == a + init;
      assert 256 * (FromBe(a) * Pow256(|init|)) == FromBe(a) * Pow256(|b|);
    }
  }

  /** Shifting right by whole bytes drops the last ones. */
  lemma BeShift(bs: seq<u8>, k: nat)
    requires k <= |bs|
    ensures FromBe(bs) / Pow256(k) == FromBe(bs[..|bs| - k])
  {
    var a, b := bs[..|bs| - k], bs[|bs| - k..];
    assert bs == a + b;
    BeConcat(a, b);
    BeBound(b);
    FloorUnique(FromBe(a), FromBe(bs), Pow256(k));
  }

  lemma {:induction false} BeZero(bs: seq<u8>)
    ensures FromBe(bs) == 0 <==> forall i | 0 <= i < |bs| :: bs[i] == 0
  {
    if bs != [] {
      var init := bs[..|bs| - 1];
      BeZero(init);
      if forall i | 0 <= i < |init| :: init[i] == 0 {
        assert forall i | 0 <= i < |bs| - 1 :: bs[i] == init[i];
      } else {
        var i :| 0 <= i < |init| && init[i] != 0;
        assert bs[i] != 0;
      }
    }
  }

  // ---------------------------------------------------------------- slices

  /** A field found at an offset, and what follows it. */
  lemma Field(buf: seq<u8>, off: nat, x: seq<u8>, rest: seq<u8>)
    requires off <= |buf| && buf[off..] == x + rest
    ensures off + |x| <= |buf| && buf[off..off + |x|] == x && buf[off + |x|..] == rest
  {
    assert |buf| == off + |x| + |rest|;
    assert buf[off..][..|x|] == x && buf[off..][|x|..] == rest;
    assert buf[off..][..|x|] == buf[off..off + |x|];
    assert buf[off..][|x|..] == buf[off + |x|..];
  }

  /** A buffer is its field at an offset and what follows it. */
  lemma Split(buf: seq<u8>, off: nat, n: nat)
    requires off + n <= |buf|
    ensures buf[off..] == buf[off..off + n] + buf[off + n..]
  {
  }
}
