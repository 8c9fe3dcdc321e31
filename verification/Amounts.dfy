/**
 * Amount arithmetic of the Solana program: decimal truncation
 * (solana/modules/wormhole-anchor-sdk/src/token_bridge/utils.rs) and the relayer's share
 * (solana/programs/xchain_token/src/state/redeemer_config.rs). The build checks for overflow,
 * so an operation whose result does not fit panics; that is None here.
 */
module Amounts {
  import opened Lists

  const U64: int := 0x1_0000_0000_0000_0000

  const MAX_WRAPPED_ASSET_DECIMALS: nat := 8

  /** An integer as a u64, if it fits. */
  function Fit(n: nat): (r: Option<nat>) { if n < U64 then Some(n) else None }

  function Pow10(n: nat): (r: nat)
    ensures r >= 1
  {
    if n == 0 then 1 else 10 * Pow10(n - 1)
  }

  /** The native units that make up one bridged unit. */
  function Unit(decimals: nat): (r: nat)
    ensures r >= 1
  {
    if decimals > MAX_WRAPPED_ASSET_DECIMALS then Pow10(decimals - MAX_WRAPPED_ASSET_DECIMALS) else 1
  }

  function AmountAdjustment(decimals: nat): (r: Option<nat>) { Fit(Unit(decimals)) }

  function NormalizeAmount(amount: nat, decimals: nat): (r: Option<nat>) {
    match AmountAdjustment(decimals)
    case None => None
    case Some(unit) => Some(amount / Unit(decimals))
  }

  function DenormalizeAmount(amount: nat, decimals: nat): (r: Option<nat>) {
    match AmountAdjustment(decimals)
    case None => None
    case Some(unit) => Fit(amount * unit)
  }

  function TruncateAmount(amount: nat, decimals: nat): (r: Option<nat>) {
    match NormalizeAmount(amount, decimals)
    case None => None
    case Some(n) => DenormalizeAmount(n, decimals)
  }

  // ---------------------------------------------------------------- truncation

  lemma {:induction false} Pow10Monotone(m: nat, n: nat)
    requires m <= n
    ensures Pow10(m) <= Pow10(n)
  {
    if m < n {
      Pow10Monotone(m, n - 1);
    }
  }

  lemma Pow10Limits()
    ensures Pow10(19) < U64 <= Pow10(20)
  {
    assert Pow10(5) == 100000;
    assert Pow10(10) == 100000 * Pow10(5);
    assert Pow10(15) == 100000 * Pow10(10);
    assert Pow10(19) == 10000 * Pow10(15);
  }

  /** The adjustment fits a u64 exactly for mints with at most 27 decimals. */
  lemma AdjustmentFits(decimals: nat)
    ensures AmountAdjustment(decimals).Some? <==> decimals <= 27
  {
    Pow10Limits();
    if decimals > 27 {
      Pow10Monotone(20, decimals - 8);
    } else if decimals > 8 {
      Pow10Monotone(decimals - 8, 19);
    }
  }

  lemma MulMonotone(x: nat, y: nat, p: nat)
    requires x <= y
    ensures x * p <= y * p
  {
  }

  lemma MulCancels(x: nat, y: nat, p: nat)
    requires x * p < y * p
    ensures x < y
  {
    if y <= x {
      MulMonotone(y, x, p);
    }
  }

  lemma MulAdds(x: nat, y: nat, p: nat)
    ensures (x + y) * p == x * p + y * p
  {
  }

  /** Of two floors with overlapping ranges neither is ahead. */
  lemma FloorsMeet(c: nat, q: nat, k: nat, p: nat)
    requires c * p < q * p + k * p
    ensures c < q + k
  {
    MulAdds(q, k, p);
    MulCancels(c, q + k, p);
  }

  lemma Floor(n: nat, p: nat)
    requires p >= 1
    ensures (n / p) * p <= n < (n / p) * p + p
  {
    assert n == (n / p) * p + n % p;
  }

  /** The floor is the only number with its bounds. */
  lemma FloorUnique(q: nat, n: nat, p: nat)
    requires p >= 1 && q * p <= n < q * p + p
    ensures n / p == q
  {
    var c := n / p;
    Floor(n, p);
    assert 1 * p == p;
    FloorsMeet(c, q, 1, p);
    FloorsMeet(q, c, 1, p);
  }

  lemma ProductDivides(q: nat, unit: nat)
    requires unit >= 1
    ensures q * unit % unit == 0 && q * unit / unit == q
  {
    FloorUnique(q, q * unit, unit);
    assert q * unit == (q * unit / unit) * unit + q * unit % unit;
  }

  /**
   * For every u64 amount and up to 27 decimals truncation does not overflow, drops less than
   * one unit, and undoing the normalized amount on the other side gives exactly it back.
   */
  lemma TruncationMeaning(amount: nat, decimals: nat)
    requires amount < U64 && decimals <= 27
    ensures var unit := Unit(decimals);
            var truncated := TruncateAmount(amount, decimals);
            && truncated.Some?
            && truncated.value <= amount < truncated.value + unit
            && truncated.value % unit == 0
            && TruncateAmount(truncated.value, decimals) == truncated
            && NormalizeAmount(truncated.value, decimals) == NormalizeAmount(amount, decimals)
            && DenormalizeAmount(NormalizeAmount(truncated.value, decimals).value, decimals) == truncated
  {
    AdjustmentFits(decimals);
    WholeUnits(amount, Unit(decimals));
  }

  lemma {:induction false} Pow10Sum(m: nat, n: nat)
    ensures Pow10(m + n) == Pow10(m) * Pow10(n)
  {
    if m > 0 {
      Pow10Sum(m - 1, n);
      MulAssociates(10, Pow10(m - 1), Pow10(n));
    }
  }

  lemma MulAssociates(x: nat, y: nat, z: nat)
    ensures (x * y) * z == x * (y * z)
  {
  }

  /** Bridged amounts have eight decimals: a mint with d of them has 10^d native units to 10^8 bridged ones. */
  lemma UnitMeaning(decimals: nat)
    ensures decimals >= 8 ==> Pow10(8) * Unit(decimals) == Pow10(decimals)
    ensures decimals <= 8 ==> Unit(decimals) == 1
    ensures Pow10(0) == 1 && Pow10(8) == 100_000_000
  {
    assert Pow10(4) == 10_000;
    Pow10Sum(4, 4);
    if decimals >= 8 {
      Pow10Sum(8, decimals - 8);
    }
  }

  /** What the bridge takes of an amount: all of it up to eight decimals, and beyond that whole 10^-8 parts. */
  function Bridged(amount: nat, decimals: nat): (r: int) {
    if decimals <= 8 then amount else amount - amount % Pow10(decimals - 8)
  }

  /** Truncation in plain decimals: it takes off the digits after the eighth, or panics beyond 27 decimals. */
  lemma TruncationDropsDigits(amount: nat, decimals: nat)
    requires amount < 0x1_0000_0000_0000_0000
    ensures TruncateAmount(amount, decimals) == if decimals <= 27 then Some(Bridged(amount, decimals)) else None
    ensures 0 <= Bridged(amount, decimals) <= amount
  {
    AdjustmentFits(decimals);
    WholePart(amount, Unit(decimals));
  }

  lemma WholePart(amount: nat, unit: nat)
    requires unit >= 1
    ensures (amount / unit) * unit == amount - amount % unit
    ensures 0 <= amount - amount % unit <= amount
  {
    assert amount == (amount / unit) * unit + amount % unit;
  }

  /** Each direction by itself, in plain decimals, with the inputs on which it panics. */
  lemma ConversionMeaning(amount: nat, decimals: nat)
    ensures decimals <= 8 ==> NormalizeAmount(amount, decimals) == Some(amount)
    ensures 8 <= decimals <= 27 ==> NormalizeAmount(amount, decimals) == Some(amount / Pow10(decimals - 8))
    ensures decimals <= 8 ==>
              DenormalizeAmount(amount, decimals) == if amount < 0x1_0000_0000_0000_0000 then Some(amount) else None
    ensures 8 <= decimals <= 27 ==>
              DenormalizeAmount(amount, decimals)
              == if amount * Pow10(decimals - 8) < 0x1_0000_0000_0000_0000 then Some(amount * Pow10(decimals - 8)) else None
    ensures decimals > 27 ==> NormalizeAmount(amount, decimals) == None && DenormalizeAmount(amount, decimals) == None
  {
    AdjustmentFits(decimals);
  }

  /** With nine decimals the last digit goes, with eight nothing does. */
  lemma TruncationValues()
    ensures TruncateAmount(15, 9) == Some(10) && TruncateAmount(15, 8) == Some(15) && TruncateAmount(9, 9) == Some(0)
    ensures NormalizeAmount(25, 9) == Some(2) && DenormalizeAmount(2, 9) == Some(20)
  {
    assert Pow10(1) == 10;
  }

  lemma WholeUnits(amount: nat, unit: nat)
    requires unit >= 1
    ensures var whole := (amount / unit) * unit;
            whole <= amount < whole + unit && whole / unit == amount / unit && whole % unit == 0
  {
    Floor(amount, unit);
    ProductDivides(amount / unit, unit);
  }

  // ---------------------------------------------------------------- the relayer's share

  /** `(amount * fee) / precision`, where the product is a u64 too. */
  function ComputeRelayerAmount(amount: nat, fee: nat, precision: nat): (r: Option<nat>) {
    if amount * fee >= U64 || precision == 0 then None else Some(amount * fee / precision)
  }

  /** With fee below precision the share is the exact floor and leaves something of any amount. */
  lemma RelayerShare(amount: nat, fee: nat, precision: nat)
    requires fee < precision
    ensures ComputeRelayerAmount(amount, fee, precision).Some? <==> amount * fee < U64
    ensures amount * fee < U64 ==>
              var share := ComputeRelayerAmount(amount, fee, precision).value;
              && share * precision <= amount * fee < share * precision + precision
              && share <= amount
              && (amount > 0 ==> share < amount)
  {
    if amount * fee < U64 {
      var share := amount * fee / precision;
      Floor(amount * fee, precision);
      if amount > 0 {
        MulMonotone(fee + 1, precision, amount);
        MulCancels(share, amount, precision);
      }
    }
  }

  function Sum(parts: seq<nat>): (r: nat) {
    if parts == [] then 0 else parts[0] + Sum(parts[1..])
  }

  function Shares(parts: seq<nat>, fee: nat, precision: nat): (r: nat)
    requires precision >= 1
  {
    if parts == [] then 0 else parts[0] * fee / precision + Shares(parts[1..], fee, precision)
  }

  lemma FloorOfSum(x: nat, y: nat, p: nat)
    requires p >= 1
    ensures x / p + y / p <= (x + y) / p <= x / p + y / p + 1
  {
    Floor(x, p);
    Floor(y, p);
    Floor(x + y, p);
    FloorsAdd(x / p, y / p, (x + y) / p, x, y, p);
  }

  lemma FloorsAdd(a: nat, b: nat, c: nat, x: nat, y: nat, p: nat)
    requires p >= 1 && a * p <= x < a * p + p && b * p <= y < b * p + p && c * p <= x + y < c * p + p
    ensures a + b <= c <= a + b + 1
  {
    MulAdds(a, b, p);
    FloorsMeet(a + b, c, 1, p);
    FloorsMeet(c, a + b, 2, p);
  }

  lemma ShareOfSum(head: nat, rest: nat, fee: nat, p: nat)
    requires p >= 1
    ensures head * fee / p + rest * fee / p <= (head + rest) * fee / p <= head * fee / p + rest * fee / p + 1
  {
    MulAdds(head, rest, fee);
    FloorOfSum(head * fee, rest * fee, p);
  }

  /** Splitting an amount in n parts never raises the total share and lowers it by at most n - 1. */
  lemma {:induction false} SplittingLosesLittle(parts: seq<nat>, fee: nat, precision: nat)
    requires fee < precision
    ensures Shares(parts, fee, precision) <= Sum(parts) * fee / precision
    ensures parts != [] ==> Sum(parts) * fee / precision <= Shares(parts, fee, precision) + |parts| - 1
  {
    if |parts| == 1 {
      assert Sum(parts[1..]) == 0 && Shares(parts[1..], fee, precision) == 0;
    } else if parts != [] {
      SplittingLosesLittle(parts[1..], fee, precision);
      ShareOfSum(parts[0], Sum(parts[1..]), fee, precision);
    }
  }
}
