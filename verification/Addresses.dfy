/** Address padding on Injective (injective/contracts/src/utils.rs). */
module Addresses {
  import opened Bytes

  /** `get_u128_be`. */
  function GetU128Be(buf: seq<u8>, index: nat): (r: Parse<nat>) {
    if |buf| < index + 16 then Panicked else Parsed(FromBe(buf[index..index + 16]))
  }

  /** `get_address`: 20 bytes when the 128-bit read, shifted right by 32 bits, is zero; else 32. */
  function GetAddress(buf: seq<u8>, index: nat): (r: Parse<seq<u8>>) {
    match GetU128Be(buf, index)
    case Malformed => Malformed
    case Panicked => Panicked
    case Parsed(word) =>
      if |buf| < index + 32 then Panicked
      else if word / Pow256(4) == 0 then Parsed(buf[index + 12..index + 32])
      else Parsed(buf[index..index + 32])
  }

  function Zeros(n: nat): (r: seq<u8>)
    ensures |r| == n
  {
    seq(n, _ => 0)
  }

  /** `extend_address_to_32_array`: left-padded with zeros; longer addresses panic. */
  function ExtendAddress(addr: seq<u8>): (r: Parse<seq<u8>>) {
    if |addr| > 32 then Panicked else Parsed(Zeros(32 - |addr|) + addr)
  }

  predicate AllZero(bs: seq<u8>) { forall i | 0 <= i < |bs| :: bs[i] == 0 }

  /** The shifted read is zero exactly when the first 12 bytes are. */
  lemma ShiftedReadZero(buf: seq<u8>, index: nat)
    requires index + 16 <= |buf|
    ensures GetU128Be(buf, index).value / Pow256(4) == 0 <==> AllZero(buf[index..index + 12])
  {
    var word := buf[index..index + 16];
    BeShift(word, 4);
    assert word[..12] == buf[index..index + 12];
    BeZero(word[..12]);
  }

  /** Padding puts zeros in front, up to 32 bytes, and panics on more. */
  lemma PaddingMeaning(addr: seq<u8>)
    ensures ExtendAddress(addr).Parsed? <==> |addr| <= 32
    ensures |addr| <= 32 ==>
              var padded := ExtendAddress(addr).value;
              && |padded| == 32 && padded[32 - |addr|..] == addr && AllZero(padded[..32 - |addr|])
  {
  }

  /** What is read, from anywhere: panics on fewer than 32 bytes, and else 20 or 32 by the first twelve. */
  lemma AddressRead(buf: seq<u8>, index: nat)
    ensures GetAddress(buf, index) ==
            if |buf| < index + 32 then Panicked
            else if AllZero(buf[index..index + 12]) then Parsed(buf[index + 12..index + 32])
            else Parsed(buf[index..index + 32])
  {
    if |buf| >= index + 16 {
      ShiftedReadZero(buf, index);
    }
  }

  /**
   * Reading a padded address gives it back exactly for the 20-byte addresses, and for those
   * 32-byte addresses whose first 12 bytes are not all zero.
   */
  lemma AddressRoundTrip(before: seq<u8>, addr: seq<u8>, after: seq<u8>)
    requires |addr| <= 32
    ensures GetAddress(before + ExtendAddress(addr).value + after, |before|) == Parsed(addr)
        <==> (|addr| == 20 || (|addr| == 32 && !AllZero(addr[..12])))
  {
    var padded := ExtendAddress(addr).value;
    var buf, n := before + padded + after, |before|;
    ShiftedReadZero(buf, n);
    assert buf[n..n + 32] == padded;
    assert buf[n..n + 12] == padded[..12] && buf[n + 12..n + 32] == padded[12..];
    if |addr| <= 20 {
      assert AllZero(padded[..12]);
    }
    if |addr| == 20 {
      assert padded[12..] == addr;
    }
    if |addr| == 32 {
      assert padded == addr;
    }
  }
}
