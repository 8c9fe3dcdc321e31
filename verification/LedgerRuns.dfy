/**
 * What holds on Solana after every instruction of every run: tokens are conserved, custody
 * accounts for what was sent and redeemed, and no transfer is redeemed twice.
 */
module LedgerRuns {
  import opened Lists
  import opened Amounts
  import opened XChainProgram

  // ---------------------------------------------------------------- runs

  /** The program's instructions, and what token holders may do on their own. */
  datatype Instruction =
    | Initialize(owner: Key, fee: nat, precision: nat)
    | RegisterContract(owner: Key, chain: nat, address: Key, endpoint: Key)
    | UpdateFee(owner: Key, fee: nat, precision: nat)
    | SendNative(payer: Key, mint: Mint, amount: nat, recipient: Key, chain: nat)
    | SendWrapped(payer: Key, mint: Mint, amount: nat, recipient: Key, chain: nat)
    | RedeemNative(payer: Key, payerToken: Account, v: Vaa, recipient: Key, endpoint: Key)
    | RedeemWrapped(payer: Key, payerToken: Account, v: Vaa, recipient: Key, endpoint: Key)
    | OpenAta(owner: Key, mint: Mint)
    | UserTransfer(owner: Key, to: Key, mint: Mint, amount: nat)

  function Executed(s: State, i: Instruction): (r: Result<State>) {
    match i
    case Initialize(owner, fee, precision) => Initialized(s, owner, fee, precision)
    case RegisterContract(owner, chain, address, endpoint) => Registered(s, owner, chain, address, endpoint)
    case UpdateFee(owner, fee, precision) => FeeUpdated(s, owner, fee, precision)
    case SendNative(payer, mint, amount, recipient, chain) => SentNative(s, payer, mint, amount, recipient, chain)
    case SendWrapped(payer, mint, amount, recipient, chain) => SentWrapped(s, payer, mint, amount, recipient, chain)
    case RedeemNative(payer, token, v, recipient, endpoint) => RedeemedNative(s, payer, token, v, recipient, endpoint)
    case RedeemWrapped(payer, token, v, recipient, endpoint) => RedeemedWrapped(s, payer, token, v, recipient, endpoint)
    case OpenAta(owner, mint) =>
      if mint in s.mints && Ata(owner, mint) !in s.balances
      then Ok(s.(balances := s.balances[Ata(owner, mint) := 0])) else Err(TokenError)
    case UserTransfer(owner, to, mint, amount) =>
      var a, b := Ata(owner, mint), Ata(to, mint);
      if a in s.balances && b in s.balances && a != b && amount <= s.balances[a]
      then Ok(s.(balances := Transferred(s.balances, a, b, amount))) else Err(TokenError)
  }

  /** An instruction that fails leaves the ledger as it was. */
  function Next(s: State, i: Instruction): (r: State) {
    if Executed(s, i).Ok? then Executed(s, i).value else s
  }

  function LedgerAfter(s: State, run: seq<Instruction>): (r: State)
    decreases |run|
  {
    if run == [] then s else LedgerAfter(Next(s, run[0]), run[1..])
  }

  // ---------------------------------------------------------------- sums

  /** All tokens of a mint. */
  ghost function Total(b: map<Account, nat>, mint: Mint): (r: nat)
    decreases |b|
  {
    if b == map[] then 0
    else
      var a :| a in b;
      Held(b, a, mint) + Total(b - {a}, mint)
  }

  function Held(b: map<Account, nat>, a: Account, mint: Mint): (r: nat) {
    if a in b && a.mint == mint then b[a] else 0
  }

  lemma {:induction false} TotalWithout(b: map<Account, nat>, mint: Mint, a: Account)
    requires a in b
    ensures Total(b, mint) == Held(b, a, mint) + Total(b - {a}, mint)
    decreases |b|
  {
    var c :| c in b && Total(b, mint) == Held(b, c, mint) + Total(b - {c}, mint);
    if c != a {
      var d, e := b - {c}, b - {a};
      TotalWithout(d, mint, a);
      TotalWithout(e, mint, c);
      assert d - {a} == e - {c};
      assert Held(d, a, mint) == Held(b, a, mint) && Held(e, c, mint) == Held(b, c, mint);
    }
  }

  lemma TotalUpdate(b: map<Account, nat>, mint: Mint, a: Account, v: nat)
    ensures Total(b[a := v], mint) == Total(b, mint) - Held(b, a, mint) + if a.mint == mint then v else 0
  {
    var c := b[a := v];
    TotalWithout(c, mint, a);
    assert c - {a} == b - {a};
    if a in b {
      TotalWithout(b, mint, a);
    } else {
      assert b - {a} == b;
    }
  }

  lemma HeldWithinTotal(b: map<Account, nat>, a: Account)
    ensures Balance(b, a) <= Total(b, a.mint)
  {
    if a in b {
      TotalWithout(b, a.mint, a);
    }
  }

  function SentOf(sent: seq<Sent>, mint: Mint): (r: nat) {
    if sent == [] then 0
    else SentOf(sent[..|sent| - 1], mint) + if sent[|sent| - 1].mint == mint then sent[|sent| - 1].amount else 0
  }

  function PaidOf(payouts: seq<Payout>, mint: Mint): (r: nat) {
    if payouts == [] then 0
    else PaidOf(payouts[..|payouts| - 1], mint) + if payouts[|payouts| - 1].mint == mint then payouts[|payouts| - 1].amount else 0
  }

  lemma SentSnoc(sent: seq<Sent>, x: Sent, mint: Mint)
    ensures SentOf(sent + [x], mint) == SentOf(sent, mint) + if x.mint == mint then x.amount else 0
  {
    assert (sent + [x])[..|sent|] == sent;
  }

  lemma PaidSnoc(payouts: seq<Payout>, x: Payout, mint: Mint)
    ensures PaidOf(payouts + [x], mint) == PaidOf(payouts, mint) + if x.mint == mint then x.amount else 0
  {
    assert (payouts + [x])[..|payouts|] == payouts;
  }

  // ---------------------------------------------------------------- invariants

  /** No temporary account survives an instruction, and every account is of a known mint. */
  ghost predicate AccountsInv(s: State) {
    forall a | a in s.balances :: !a.Tmp? && a.mint in s.mints
  }

  /**
   * A mint's supply is what its accounts hold, and fits a u64. Since genesis only wrapped supply
   * has moved, by what was redeemed less what was sent; and native custody is what was sent less
   * what was redeemed, in whole bridged units.
   */
  ghost predicate MintInv(g: State, s: State, m: Mint)
    requires m in g.mints && m in s.mints
  {
    && Total(s.balances, m) == s.mints[m].supply < U64
    && s.mints[m].decimals == g.mints[m].decimals
    && (if m.Wrapped?
        then s.mints[m].supply == g.mints[m].supply + PaidOf(s.payouts, m) - SentOf(s.sent, m)
        else
          && s.mints[m].supply == g.mints[m].supply
          && Balance(s.balances, Custody(m)) == SentOf(s.sent, m) - PaidOf(s.payouts, m)
          && Balance(s.balances, Custody(m)) % Unit(s.mints[m].decimals) == 0)
  }

  ghost predicate MintsInv(g: State, s: State) {
    s.mints.Keys == g.mints.Keys && forall m | m in s.mints :: MintInv(g, s, m)
  }

  predicate FeeInv(s: State) { s.config.Some? ==> s.config.value.fee < s.config.value.precision }

  predicate RegistryInv(s: State) {
    forall c | c in s.foreign ::
      s.foreign[c].chain == c && c != 0 && c != CHAIN_ID_SOLANA && s.foreign[c].address != 0
  }

  /** The payouts are of distinct transfers, which are those claimed. */
  ghost predicate ClaimsInv(s: State) {
    && (forall i, j | 0 <= i < j < |s.payouts| :: IdOf(s.payouts[i].vaa) != IdOf(s.payouts[j].vaa))
    && (forall i | 0 <= i < |s.payouts| :: IdOf(s.payouts[i].vaa) in s.claims)
    && (forall id | id in s.claims :: exists i :: 0 <= i < |s.payouts| && IdOf(s.payouts[i].vaa) == id)
  }

  /** A payout follows from its transfer: its source, its destination, its mint and its amount. */
  predicate Justified(s: State, p: Payout) {
    && p.vaa.emitterChain != 0 && p.vaa.emitterChain != CHAIN_ID_SOLANA && p.vaa.fromAddress != 0
    && p.vaa.toChain == CHAIN_ID_SOLANA && (p.vaa.to == s.programId || p.vaa.to == s.redeemerKey)
    && p.mint in s.mints
    && (if p.vaa.tokenChain == CHAIN_ID_SOLANA
        then p.mint == Native(p.vaa.tokenAddress)
          && DenormalizeAmount(p.vaa.amount, s.mints[p.mint].decimals) == Some(p.amount)
        else p.mint == Wrapped(p.vaa.tokenChain, p.vaa.tokenAddress) && p.amount == p.vaa.amount)
    && p.share <= p.amount
    && (p.amount > 0 ==> p.share < p.amount)
  }

  ghost predicate PayoutsInv(s: State) {
    forall p | p in s.payouts :: Justified(s, p)
  }

  ghost predicate LedgerInv(g: State, s: State) {
    && AccountsInv(s) && MintsInv(g, s)
    && FeeInv(s) && RegistryInv(s) && ClaimsInv(s) && PayoutsInv(s)
  }

  /** A ledger before the program is initialized, with nothing in custody. */
  ghost predicate Genesis(s: State) {
    && s.config.None? && s.foreign == map[] && s.claims == {} && s.sent == [] && s.payouts == []
    && AccountsInv(s)
    && (forall m | m in s.mints :: Total(s.balances, m) == s.mints[m].supply < U64)
    && forall m :: Balance(s.balances, Custody(m)) == 0
  }

  lemma GenesisInv(g: State)
    requires Genesis(g)
    ensures LedgerInv(g, g)
  {
    forall m | m in g.mints && m.Native? ensures Balance(g.balances, Custody(m)) % Unit(g.mints[m].decimals) == 0 {
      assert Balance(g.balances, Custody(m)) == 0;
    }
  }

  lemma MultiplesAdd(x: nat, y: nat, unit: nat)
    requires unit >= 1 && x % unit == 0 && y % unit == 0
    ensures (x + y) % unit == 0
    ensures x >= y ==> (x - y) % unit == 0
  {
    var a, b := x / unit, y / unit;
    assert x == a * unit && y == b * unit;
    MulAdds(a, b, unit);
    ProductDivides(a + b, unit);
    if x >= y {
      if a < b {
        MulMonotone(a + 1, b, unit);
        MulAdds(a, 1, unit);
        assert false;
      }
      MulAdds(a - b, b, unit);
      ProductDivides(a - b, unit);
    }
  }

  // ---------------------------------------------------------------- each instruction

  /** From `s` to `t`, `sent` of mint `m` leaves and `paid` of it comes in. */
  ghost predicate Moves(s: State, t: State, m: Mint, sent: nat, paid: nat)
    requires m in s.mints
  {
    && m in t.mints && t.mints[m].decimals == s.mints[m].decimals
    && SentOf(t.sent, m) == SentOf(s.sent, m) + sent
    && PaidOf(t.payouts, m) == PaidOf(s.payouts, m) + paid
    && var change := if m.Wrapped? then paid - sent else 0;
      && t.mints[m].supply == s.mints[m].supply + change < U64
      && Total(t.balances, m) == Total(s.balances, m) + change
      && (m.Native? ==> Balance(t.balances, Custody(m)) == Balance(s.balances, Custody(m)) + sent - paid)
  }

  lemma MovesKeepMint(g: State, s: State, t: State, m: Mint, sent: nat, paid: nat)
    requires m in g.mints && m in s.mints && MintInv(g, s, m)
    requires Moves(s, t, m, sent, paid)
    requires m.Native? ==> sent % Unit(s.mints[m].decimals) == 0 && paid % Unit(s.mints[m].decimals) == 0
    ensures MintInv(g, t, m)
  {
    if m.Native? {
      var unit := Unit(s.mints[m].decimals);
      MultiplesAdd(Balance(s.balances, Custody(m)), sent, unit);
      MultiplesAdd(Balance(s.balances, Custody(m)) + sent, paid, unit);
    }
  }

  lemma SentNativeMoves(s: State, payer: Key, mint: Mint, amount: nat, recipient: Key, chain: nat, m: Mint)
    returns (sent: nat)
    requires SentNative(s, payer, mint, amount, recipient, chain).Ok? && m in s.mints && s.mints[m].supply < U64
    ensures Moves(s, SentNative(s, payer, mint, amount, recipient, chain).value, m, sent, 0)
    ensures sent % Unit(s.mints[m].decimals) == 0
  {
    var t, from, custody := SentNative(s, payer, mint, amount, recipient, chain).value, Ata(payer, mint), Custody(mint);
    var truncated := TruncateAmount(amount, s.mints[mint].decimals).value;
    var left := s.balances[from] - truncated;
    TotalUpdate(s.balances, m, from, left);
    TotalUpdate(s.balances[from := left], m, custody, Balance(s.balances, custody) + truncated);
    SentSnoc(s.sent, t.sent[|s.sent|], m);
    TruncatedIsMultiple(amount, s.mints[mint].decimals);
    ProductDivides(0, Unit(s.mints[m].decimals));
    sent := if m == mint then truncated else 0;
  }

  lemma SentWrappedMoves(s: State, payer: Key, mint: Mint, amount: nat, recipient: Key, chain: nat, m: Mint)
    requires SentWrapped(s, payer, mint, amount, recipient, chain).Ok? && m in s.mints && s.mints[m].supply < U64
    ensures Moves(s, SentWrapped(s, payer, mint, amount, recipient, chain).value, m, if m == mint then amount else 0, 0)
    ensures mint.Wrapped?
  {
    var t, from := SentWrapped(s, payer, mint, amount, recipient, chain).value, Ata(payer, mint);
    TotalUpdate(s.balances, m, from, s.balances[from] - amount);
    SentSnoc(s.sent, t.sent[|s.sent|], m);
  }

  lemma TruncatedIsMultiple(amount: nat, decimals: nat)
    requires TruncateAmount(amount, decimals).Some?
    ensures TruncateAmount(amount, decimals).value % Unit(decimals) == 0
  {
    ProductDivides(amount / Unit(decimals), Unit(decimals));
  }

  /** Paying out adds exactly the amount to the mint's accounts. */
  lemma PaidOutTotal(b: map<Account, nat>, payer: Key, recipient: Key, mint: Mint, amount: nat, share: nat, m: Mint)
    requires share <= amount
    ensures Total(PaidOut(b, payer, recipient, mint, amount, share), m) == Total(b, m) + if m == mint then amount else 0
  {
    var to, relay := Ata(recipient, mint), Ata(payer, mint);
    if payer == recipient {
      TotalUpdate(b, m, to, Balance(b, to) + amount);
    } else {
      TotalUpdate(b, m, to, Balance(b, to) + (amount - share));
      TotalUpdate(b[to := Balance(b, to) + (amount - share)], m, relay, Balance(b, relay) + share);
    }
  }

  lemma ShareBounds(s: State, payer: Key, recipient: Key, mint: Mint, amount: nat)
    requires s.config.Some? && FeeInv(s) && ShareOf(s, payer, recipient, mint, amount).Ok?
    ensures var share := ShareOf(s, payer, recipient, mint, amount).value;
            share <= amount && (amount > 0 ==> share < amount)
  {
    RelayerShare(amount, s.config.value.fee, s.config.value.precision);
  }

  /** A redeem adds one justified payout, and claims its transfer. */
  lemma PayoutAdded(s: State, t: State, p: Payout)
    requires ClaimsInv(s) && PayoutsInv(s) && IdOf(p.vaa) !in s.claims
    requires t.payouts == s.payouts + [p] && t.claims == s.claims + {IdOf(p.vaa)}
    requires t.programId == s.programId && t.redeemerKey == s.redeemerKey
    requires t.mints.Keys == s.mints.Keys && forall m | m in s.mints :: t.mints[m].decimals == s.mints[m].decimals
    requires Justified(t, p)
    ensures ClaimsInv(t) && PayoutsInv(t)
  {
    forall q | q in t.payouts ensures Justified(t, q) {
      if q != p {
        assert q in s.payouts;
      }
    }
    forall id | id in t.claims ensures exists i :: 0 <= i < |t.payouts| && IdOf(t.payouts[i].vaa) == id {
      if id in s.claims {
        var i :| 0 <= i < |s.payouts| && IdOf(s.payouts[i].vaa) == id;
        assert t.payouts[i] == s.payouts[i];
      } else {
        assert t.payouts[|s.payouts|] == p;
      }
    }
  }

  lemma RedeemedNativeMoves(s: State, payer: Key, token: Account, v: Vaa, recipient: Key, endpoint: Key, m: Mint)
    returns (paid: nat)
    requires RedeemedNative(s, payer, token, v, recipient, endpoint).Ok? && m in s.mints && s.mints[m].supply < U64
    ensures Moves(s, RedeemedNative(s, payer, token, v, recipient, endpoint).value, m, 0, paid)
    ensures paid % Unit(s.mints[m].decimals) == 0
  {
    var t, mint := RedeemedNative(s, payer, token, v, recipient, endpoint).value, Native(v.tokenAddress);
    var custody, p := Custody(mint), t.payouts[|s.payouts|];
    var left := s.balances[custody] - p.amount;
    assert t.balances == PaidOut(s.balances[custody := left], payer, recipient, mint, p.amount, p.share);
    TotalUpdate(s.balances, m, custody, left);
    PaidOutTotal(s.balances[custody := left], payer, recipient, mint, p.amount, p.share, m);
    PaidSnoc(s.payouts, p, m);
    DenormalizedIsMultiple(v.amount, s.mints[mint].decimals);
    ProductDivides(0, Unit(s.mints[m].decimals));
    paid := if m == mint then p.amount else 0;
  }

  lemma DenormalizedIsMultiple(amount: nat, decimals: nat)
    requires DenormalizeAmount(amount, decimals).Some?
    ensures DenormalizeAmount(amount, decimals).value % Unit(decimals) == 0
  {
    ProductDivides(amount, Unit(decimals));
  }

  lemma RedeemedWrappedMoves(s: State, payer: Key, token: Account, v: Vaa, recipient: Key, endpoint: Key, m: Mint)
    requires RedeemedWrapped(s, payer, token, v, recipient, endpoint).Ok? && m in s.mints && s.mints[m].supply < U64
    ensures var mint := Wrapped(v.tokenChain, v.tokenAddress);
            Moves(s, RedeemedWrapped(s, payer, token, v, recipient, endpoint).value, m, 0, if m == mint then v.amount else 0)
  {
    var t, mint := RedeemedWrapped(s, payer, token, v, recipient, endpoint).value, Wrapped(v.tokenChain, v.tokenAddress);
    var p := t.payouts[|s.payouts|];
    PaidOutTotal(s.balances, payer, recipient, mint, p.amount, p.share, m);
    PaidSnoc(s.payouts, p, m);
  }

  lemma OpenedMoves(s: State, owner: Key, mint: Mint, m: Mint)
    requires m in s.mints && s.mints[m].supply < U64 && Ata(owner, mint) !in s.balances
    ensures Moves(s, s.(balances := s.balances[Ata(owner, mint) := 0]), m, 0, 0)
  {
    TotalUpdate(s.balances, m, Ata(owner, mint), 0);
  }

  lemma TransferredMoves(s: State, a: Account, b: Account, amount: nat, m: Mint)
    requires m in s.mints && s.mints[m].supply < U64
    requires a in s.balances && b in s.balances && a != b && amount <= s.balances[a]
    requires a.Ata? && b.Ata? && a.mint == b.mint
    ensures Moves(s, s.(balances := Transferred(s.balances, a, b, amount)), m, 0, 0)
  {
    TotalUpdate(s.balances, m, a, s.balances[a] - amount);
    TotalUpdate(s.balances[a := s.balances[a] - amount], m, b, s.balances[b] + amount);
  }

  /** Every instruction moves every mint by some amount sent and some amount paid. */
  lemma InstructionMoves(s: State, i: Instruction, m: Mint) returns (sent: nat, paid: nat)
    requires m in s.mints && s.mints[m].supply < U64
    ensures Moves(s, Next(s, i), m, sent, paid)
    ensures m.Native? ==> sent % Unit(s.mints[m].decimals) == 0 && paid % Unit(s.mints[m].decimals) == 0
  {
    sent, paid := 0, 0;
    ProductDivides(0, Unit(s.mints[m].decimals));
    if Executed(s, i).Ok? {
      match i
      case SendNative(payer, mint, amount, recipient, chain) =>
        sent := SentNativeMoves(s, payer, mint, amount, recipient, chain, m);
      case SendWrapped(payer, mint, amount, recipient, chain) =>
        SentWrappedMoves(s, payer, mint, amount, recipient, chain, m);
        sent := if m == mint then amount else 0;
      case RedeemNative(payer, token, v, recipient, endpoint) =>
        paid := RedeemedNativeMoves(s, payer, token, v, recipient, endpoint, m);
      case RedeemWrapped(payer, token, v, recipient, endpoint) =>
        RedeemedWrappedMoves(s, payer, token, v, recipient, endpoint, m);
        paid := if m == Wrapped(v.tokenChain, v.tokenAddress) then v.amount else 0;
      case OpenAta(owner, mint) =>
        OpenedMoves(s, owner, mint, m);
      case UserTransfer(owner, to, mint, amount) =>
        TransferredMoves(s, Ata(owner, mint), Ata(to, mint), amount, m);
      case _ =>
    }
  }

  /** Every instruction keeps every mint's account. */
  lemma InstructionMints(g: State, s: State, i: Instruction)
    requires MintsInv(g, s)
    ensures MintsInv(g, Next(s, i))
  {
    forall m | m in s.mints ensures m in Next(s, i).mints && MintInv(g, Next(s, i), m) {
      assert MintInv(g, s, m);
      var sent, paid := InstructionMoves(s, i, m);
      MovesKeepMint(g, s, Next(s, i), m, sent, paid);
    }
    SameMints(s, i);
  }

  lemma SameMints(s: State, i: Instruction)
    ensures Next(s, i).mints.Keys == s.mints.Keys
  {
  }

  /** The payout that a redeem makes. */
  function Added(s: State, i: Instruction): (r: Payout)
    requires (i.RedeemNative? || i.RedeemWrapped?) && Executed(s, i).Ok?
  {
    Next(s, i).payouts[|s.payouts|]
  }

  lemma RedeemJustified(s: State, i: Instruction)
    requires FeeInv(s) && RegistryInv(s) && (i.RedeemNative? || i.RedeemWrapped?) && Executed(s, i).Ok?
    ensures Justified(s, Added(s, i)) && Added(s, i).vaa == i.v && IdOf(i.v) !in s.claims && FromRegistered(s, i.v)
  {
    var p := Added(s, i);
    ShareBounds(s, i.payer, i.recipient, p.mint, p.amount);
  }

  lemma SameDecimals(s: State, i: Instruction)
    ensures Next(s, i).mints.Keys == s.mints.Keys
    ensures forall m | m in s.mints :: Next(s, i).mints[m].decimals == s.mints[m].decimals
    ensures Next(s, i).programId == s.programId && Next(s, i).redeemerKey == s.redeemerKey
  {
  }

  lemma InstructionClaims(s: State, i: Instruction)
    requires FeeInv(s) && RegistryInv(s) && ClaimsInv(s) && PayoutsInv(s)
    ensures ClaimsInv(Next(s, i)) && PayoutsInv(Next(s, i))
  {
    var t := Next(s, i);
    SameDecimals(s, i);
    if Executed(s, i).Ok? && (i.RedeemNative? || i.RedeemWrapped?) {
      RedeemJustified(s, i);
      PayoutAdded(s, t, Added(s, i));
    } else {
      assert t.payouts == s.payouts && t.claims == s.claims;
      forall p | p in t.payouts ensures Justified(t, p) {
        assert Justified(s, p);
      }
    }
  }

  lemma InstructionAccounts(s: State, i: Instruction)
    requires AccountsInv(s) && FeeInv(s) && RegistryInv(s)
    ensures AccountsInv(Next(s, i)) && FeeInv(Next(s, i)) && RegistryInv(Next(s, i))
  {
  }

  /** Every instruction keeps the invariant, whether it completes or aborts. */
  lemma InstructionInv(g: State, s: State, i: Instruction)
    requires LedgerInv(g, s)
    ensures LedgerInv(g, Next(s, i))
  {
    InstructionMints(g, s, i);
    InstructionClaims(s, i);
    InstructionAccounts(s, i);
  }

  lemma {:induction false} LedgerRunInv(g: State, s: State, run: seq<Instruction>)
    requires LedgerInv(g, s)
    ensures LedgerInv(g, LedgerAfter(s, run))
    decreases |run|
  {
    if run != [] {
      InstructionInv(g, s, run[0]);
      LedgerRunInv(g, Next(s, run[0]), run[1..]);
    }
  }

  // ---------------------------------------------------------------- main results

  /**
   * After every run from genesis: no temporary account is left, native totals are what they were,
   * wrapped supply has moved by exactly what was redeemed less what was sent, and native custody
   * is what was sent less what was redeemed, a multiple of the mint's unit.
   */
  lemma TokensConserved(g: State, run: seq<Instruction>, m: Mint)
    requires Genesis(g) && m in g.mints
    ensures var t := LedgerAfter(g, run);
            && Tmp(m) !in t.balances
            && m in t.mints
            && (m.Native? ==>
                  && Total(t.balances, m) == Total(g.balances, m)
                  && Balance(t.balances, Custody(m)) == SentOf(t.sent, m) - PaidOf(t.payouts, m)
                  && Balance(t.balances, Custody(m)) % Unit(g.mints[m].decimals) == 0)
            && (m.Wrapped? ==>
                  && t.mints[m].supply == g.mints[m].supply + PaidOf(t.payouts, m) - SentOf(t.sent, m)
                  && Total(t.balances, m) == t.mints[m].supply)
  {
    GenesisInv(g);
    LedgerRunInv(g, g, run);
    assert MintInv(g, LedgerAfter(g, run), m) && MintInv(g, g, m);
  }

  /** Once initialized the fee stays below its precision, and every registered contract is a real one. */
  lemma ConfigurationSound(g: State, run: seq<Instruction>)
    requires Genesis(g)
    ensures FeeInv(LedgerAfter(g, run)) && RegistryInv(LedgerAfter(g, run))
  {
    GenesisInv(g);
    LedgerRunInv(g, g, run);
  }

  /** No account ever holds more than a u64, so the token program's own checks never fail. */
  lemma BalancesFit(g: State, run: seq<Instruction>, a: Account)
    requires Genesis(g)
    ensures Balance(LedgerAfter(g, run).balances, a) < U64
  {
    GenesisInv(g);
    LedgerRunInv(g, g, run);
    var t := LedgerAfter(g, run);
    if a in t.balances {
      assert MintInv(g, t, a.mint);
      HeldWithinTotal(t.balances, a);
    }
  }

  /** How many payouts a transfer has had. */
  function PayoutsFor(payouts: seq<Payout>, id: VaaId): (r: nat) {
    if payouts == [] then 0
    else PayoutsFor(payouts[..|payouts| - 1], id) + if IdOf(payouts[|payouts| - 1].vaa) == id then 1 else 0
  }

  lemma {:induction false} DistinctPayouts(payouts: seq<Payout>, id: VaaId)
    requires forall i, j | 0 <= i < j < |payouts| :: IdOf(payouts[i].vaa) != IdOf(payouts[j].vaa)
    ensures PayoutsFor(payouts, id) == if exists i :: 0 <= i < |payouts| && IdOf(payouts[i].vaa) == id then 1 else 0
  {
    if payouts != [] {
      var n := |payouts| - 1;
      DistinctPayouts(payouts[..n], id);
      if i :| 0 <= i < n && IdOf(payouts[i].vaa) == id {
        assert payouts[..n][i] == payouts[i] && IdOf(payouts[n].vaa) != id;
      }
    }
  }

  /**
   * The payout was made by the i-th instruction of the run, a redeem of its transfer, which came from
   * the contract registered for its chain at that moment.
   */
  predicate MadeAt(g: State, run: seq<Instruction>, i: nat, p: Payout)
    requires i < |run|
  {
    var s := LedgerAfter(g, run[..i]);
    && (run[i].RedeemNative? || run[i].RedeemWrapped?) && Executed(s, run[i]).Ok?
    && Added(s, run[i]) == p && run[i].v == p.vaa
    && FromRegistered(s, p.vaa)
  }

  lemma {:induction false} PayoutMade(g: State, run: seq<Instruction>, p: Payout) returns (i: nat)
    requires p in LedgerAfter(g, run).payouts && p !in g.payouts
    ensures i < |run| && MadeAt(g, run, i, p)
    decreases |run|
  {
    var t := Next(g, run[0]);
    if p in t.payouts {
      i := 0;
      assert run[..0] == [];
      FirstPayout(g, run[0], p);
    } else {
      var j := PayoutMade(t, run[1..], p);
      i := j + 1;
      assert run[..i][0] == run[0] && run[..i][1..] == run[1..][..j];
    }
  }

  lemma FirstPayout(s: State, i: Instruction, p: Payout)
    requires p in Next(s, i).payouts && p !in s.payouts
    ensures (i.RedeemNative? || i.RedeemWrapped?) && Executed(s, i).Ok?
    ensures Added(s, i) == p && i.v == p.vaa && FromRegistered(s, p.vaa)
  {
  }

  /**
   * Over every run a transfer is paid out once if it was claimed and never otherwise, and every
   * payout was made by a redeem of a transfer from a contract registered then, in the transfer's own
   * mint and amount.
   */
  lemma RedeemedAtMostOnce(g: State, run: seq<Instruction>, id: VaaId)
    requires Genesis(g)
    ensures var t := LedgerAfter(g, run);
            && PayoutsFor(t.payouts, id) == (if id in t.claims then 1 else 0)
            && forall p | p in t.payouts :: Justified(t, p) && exists i :: 0 <= i < |run| && MadeAt(g, run, i, p)
  {
    GenesisInv(g);
    LedgerRunInv(g, g, run);
    var t := LedgerAfter(g, run);
    DistinctPayouts(t.payouts, id);
    forall p | p in t.payouts ensures exists i :: 0 <= i < |run| && MadeAt(g, run, i, p) {
      var i := PayoutMade(g, run, p);
    }
  }

  /**
   * A redeem is of a transfer from the contract registered for its chain, and pays the payload's
   * recipient and the paying relayer, and nobody else: the relayer gets the floor of his fee, the
   * recipient the rest, and a transfer has only one way in.
   */
  lemma RedeemPays(s: State, i: Instruction, a: Account)
    requires FeeInv(s) && (i.RedeemNative? || i.RedeemWrapped?) && Executed(s, i).Ok?
    ensures var t, p := Next(s, i), Added(s, i);
            && FromRegistered(s, i.v)
            && i.recipient == i.v.recipient
            && (i.RedeemNative? <==> i.v.tokenChain == CHAIN_ID_SOLANA)
            && (p.mint.Native? <==> i.v.tokenChain == CHAIN_ID_SOLANA)
            && (if i.payer == i.recipient then p.share == 0
                else p.share * s.config.value.precision <= p.amount * s.config.value.fee
                       < p.share * s.config.value.precision + s.config.value.precision)
            && Balance(t.balances, a) ==
                 Balance(s.balances, a)
                 + (if a == Ata(i.v.recipient, p.mint) then p.amount - p.share else 0)
                 + (if a == Ata(i.payer, p.mint) then p.share else 0)
                 - (if a == Custody(p.mint) && p.mint.Native? then p.amount else 0)
  {
    var p := Added(s, i);
    if i.payer != i.recipient {
      RelayerShare(p.amount, s.config.value.fee, s.config.value.precision);
    }
  }

  /** The redeem of a transfer by `payer`, through the one guard it passes. */
  function RedeemBy(payer: Key, v: Vaa, recipient: Key, endpoint: Key): (r: Instruction) {
    if NativeGuard(v) then RedeemNative(payer, Ata(payer, Native(v.tokenAddress)), v, recipient, endpoint)
    else RedeemWrapped(payer, Ata(payer, Wrapped(v.tokenChain, v.tokenAddress)), v, recipient, endpoint)
  }

  /**
   * A relayer with an account for the mint can redeem what the recipient could redeem himself
   * exactly when the product of amount and fee fits a u64; the share itself is never too large.
   */
  lemma RelayedIffProductFits(s: State, payer: Key, v: Vaa, recipient: Key, endpoint: Key)
    requires FeeInv(s) && payer != recipient
    requires Executed(s, RedeemBy(recipient, v, recipient, endpoint)).Ok?
    requires Ata(payer, Added(s, RedeemBy(recipient, v, recipient, endpoint)).mint) in s.balances
    ensures var amount := Added(s, RedeemBy(recipient, v, recipient, endpoint)).amount;
            Executed(s, RedeemBy(payer, v, recipient, endpoint)).Ok? <==> amount * s.config.value.fee < U64
  {
    var amount := Added(s, RedeemBy(recipient, v, recipient, endpoint)).amount;
    RelayerShare(amount, s.config.value.fee, s.config.value.precision);
  }

  /** One that fails: half of a u64 at a fee of two thirds pays the recipient, but not through a relayer. */
  lemma RelayedRedeemCanFail() returns (s: State, v: Vaa, payer: Key, recipient: Key)
    ensures FeeInv(s) && s.config.Some? && (s.config.value.fee, s.config.value.precision) == (2, 3)
    ensures v.amount == U64 / 2 && payer != recipient
    ensures Executed(s, RedeemBy(recipient, v, recipient, 0)).Ok?
    ensures Ata(payer, Added(s, RedeemBy(recipient, v, recipient, 0)).mint) in s.balances
    ensures Executed(s, RedeemBy(payer, v, recipient, 0)) == Err(Panic)
  {
    payer, recipient := 1, 2;
    var mint := Wrapped(2, 7);
    v := Vaa(2, 9, 0, 5, U64 / 2, 2, 7, 3, CHAIN_ID_SOLANA, recipient);
    s := State(
      3, 4, Some(Config(6, 2, 3)), map[2 := ForeignContract(2, 5, 0)], map[mint := MintInfo(8, 0)],
      map[Ata(payer, mint) := 0, Ata(recipient, mint) := 0], {}, [], []);
  }

  // ---------------------------------------------------------------- when instructions complete

  /** The accounts that both sends need. */
  predicate SenderReady(s: State, payer: Key, mint: Mint, chain: nat) {
    && s.config.Some? && chain in s.foreign && mint in s.mints
    && Ata(payer, mint) in s.balances && Tmp(mint) !in s.balances
  }

  /**
   * A native send completes exactly when its accounts are there, the target is another chain than
   * Solana with a recipient that is not zero, the mint is not a wrapped one, and something is left
   * after truncation that the payer holds. Which of these fails first decides the error.
   */
  lemma SendNativeCompletesIff(s: State, payer: Key, mint: Mint, amount: nat, recipient: Key, chain: nat)
    requires amount < 0x1_0000_0000_0000_0000
    ensures var r := Executed(s, SendNative(payer, mint, amount, recipient, chain));
            && (r.Ok? <==>
                  && SenderReady(s, payer, mint, chain) && s.mints[mint].decimals <= 27
                  && chain != 0 && chain != 1 && recipient != 0 && mint.Native?
                  && 0 < Bridged(amount, s.mints[mint].decimals) <= s.balances[Ata(payer, mint)])
            && (r == Err(ConstraintViolated) <==> !SenderReady(s, payer, mint, chain))
            && (SenderReady(s, payer, mint, chain) ==>
                  && (r == Err(Panic) <==> s.mints[mint].decimals > 27)
                  && (r == Err(ZeroBridgeAmount) <==>
                        s.mints[mint].decimals <= 27 && Bridged(amount, s.mints[mint].decimals) == 0)
                  && (r == Err(InvalidRecipient) <==>
                        && s.mints[mint].decimals <= 27 && Bridged(amount, s.mints[mint].decimals) > 0
                        && (chain == 0 || chain == 1 || recipient == 0)))
  {
    if mint in s.mints {
      TruncationDropsDigits(amount, s.mints[mint].decimals);
    }
  }

  /** What a completed native send leaves: the bridged amount moved to custody, and a log entry for it. */
  lemma SendNativeEffect(s: State, payer: Key, mint: Mint, amount: nat, recipient: Key, chain: nat, a: Account)
    requires amount < 0x1_0000_0000_0000_0000
    requires Executed(s, SendNative(payer, mint, amount, recipient, chain)).Ok?
    ensures var t, out := Next(s, SendNative(payer, mint, amount, recipient, chain)), Bridged(amount, s.mints[mint].decimals);
            && t == s.(balances := t.balances, sent := t.sent)
            && out >= 0 && t.sent == s.sent + [Sent(mint, out, chain, s.foreign[chain].address, recipient)]
            && Balance(t.balances, a) == Balance(s.balances, a)
                 - (if a == Ata(payer, mint) then out else 0) + (if a == Custody(mint) then out else 0)
  {
    TruncationDropsDigits(amount, s.mints[mint].decimals);
  }

  /** A wrapped send completes exactly so too, without truncation, and when the supply covers it. */
  lemma SendWrappedCompletesIff(s: State, payer: Key, mint: Mint, amount: nat, recipient: Key, chain: nat)
    ensures var r := Executed(s, SendWrapped(payer, mint, amount, recipient, chain));
            && (r.Ok? <==>
                  && SenderReady(s, payer, mint, chain) && mint.Wrapped?
                  && chain != 0 && chain != 1 && recipient != 0
                  && 0 < amount <= s.balances[Ata(payer, mint)] && amount <= s.mints[mint].supply)
            && (r == Err(ConstraintViolated) <==> !(SenderReady(s, payer, mint, chain) && mint.Wrapped?))
            && (SenderReady(s, payer, mint, chain) && mint.Wrapped? ==>
                  && (r == Err(ZeroBridgeAmount) <==> amount == 0)
                  && (r == Err(InvalidRecipient) <==> amount > 0 && (chain == 0 || chain == 1 || recipient == 0)))
  {
  }

  lemma SendWrappedEffect(s: State, payer: Key, mint: Mint, amount: nat, recipient: Key, chain: nat, a: Account)
    requires Executed(s, SendWrapped(payer, mint, amount, recipient, chain)).Ok?
    ensures var t := Next(s, SendWrapped(payer, mint, amount, recipient, chain));
            && t == s.(balances := t.balances, mints := t.mints, sent := t.sent)
            && t.sent == s.sent + [Sent(mint, amount, chain, s.foreign[chain].address, recipient)]
            && t.mints[mint].supply + amount == s.mints[mint].supply
            && Balance(t.balances, a) == Balance(s.balances, a) - (if a == Ata(payer, mint) then amount else 0)
  {
  }

  /** The transfer comes from the contract that is registered for its chain, through that contract's endpoint. */
  predicate FromContract(s: State, v: Vaa, endpoint: Key) {
    && v.emitterChain in s.foreign
    && s.foreign[v.emitterChain] == ForeignContract(v.emitterChain, v.fromAddress, endpoint)
  }

  /** Everything around a redeem of either kind that has to be so before it starts. */
  predicate RedeemReady(s: State, payer: Key, token: Account, v: Vaa, recipient: Key, endpoint: Key, mint: Mint) {
    && s.config.Some? && FromContract(s, v, endpoint)
    && (v.to == s.programId || v.to == s.redeemerKey) && v.toChain == 1
    && mint in s.mints && Ata(recipient, mint) in s.balances && Tmp(mint) !in s.balances
    && (payer != recipient ==> token == Ata(payer, mint))
  }

  /** Whoever redeems for somebody else has an account for his share, and the product for it fits. */
  predicate CanBePaid(s: State, payer: Key, recipient: Key, mint: Mint, amount: nat)
    requires s.config.Some?
  {
    payer != recipient ==>
      Ata(payer, mint) in s.balances && amount * s.config.value.fee < 0x1_0000_0000_0000_0000
  }

  /**
   * A native redeem completes exactly when it is ready, the token is Solana's own and has a custody
   * account, the transfer was not redeemed, the recipient is the payload's, and the amount in native
   * units fits and is in custody, and the payer can be paid.
   */
  lemma RedeemNativeCompletesIff(s: State, payer: Key, token: Account, v: Vaa, recipient: Key, endpoint: Key)
    requires FeeInv(s)
    ensures var mint, r := Native(v.tokenAddress), Executed(s, RedeemNative(payer, token, v, recipient, endpoint));
            var ready := RedeemReady(s, payer, token, v, recipient, endpoint, mint) && v.tokenChain == 1 && Custody(mint) in s.balances;
            var claimed := VaaId(v.emitterChain, v.emitterAddress, v.sequence) in s.claims;
            && (r.Ok? <==>
                  && ready && !claimed && recipient == v.recipient
                  && s.mints[mint].decimals <= 27
                  && var amount := v.amount * (if s.mints[mint].decimals <= 8 then 1 else Pow10(s.mints[mint].decimals - 8));
                    && amount < 0x1_0000_0000_0000_0000 && amount <= s.balances[Custody(mint)]
                    && CanBePaid(s, payer, recipient, mint, amount))
            && (r == Err(ConstraintViolated) <==> !ready)
            && (r == Err(AlreadyRedeemed) <==> ready && claimed)
            && (r == Err(InvalidRecipient) <==> ready && !claimed && recipient != v.recipient)
  {
    var mint := Native(v.tokenAddress);
    if mint in s.mints {
      var decimals := s.mints[mint].decimals;
      ConversionMeaning(v.amount, decimals);
      if decimals <= 27 && s.config.Some? {
        RelayerShare(v.amount * Unit(decimals), s.config.value.fee, s.config.value.precision);
      }
    }
  }

  /** A wrapped redeem: the same, for a token of another chain, when the supply has room for the amount. */
  lemma RedeemWrappedCompletesIff(s: State, payer: Key, token: Account, v: Vaa, recipient: Key, endpoint: Key)
    requires FeeInv(s)
    ensures var mint, r := Wrapped(v.tokenChain, v.tokenAddress), Executed(s, RedeemWrapped(payer, token, v, recipient, endpoint));
            var ready := RedeemReady(s, payer, token, v, recipient, endpoint, mint) && v.tokenChain != 1;
            var claimed := VaaId(v.emitterChain, v.emitterAddress, v.sequence) in s.claims;
            && (r.Ok? <==>
                  && ready && !claimed && recipient == v.recipient
                  && s.mints[mint].supply + v.amount < 0x1_0000_0000_0000_0000
                  && CanBePaid(s, payer, recipient, mint, v.amount))
            && (r == Err(ConstraintViolated) <==> !ready)
            && (r == Err(AlreadyRedeemed) <==> ready && claimed)
            && (r == Err(InvalidRecipient) <==> ready && !claimed && recipient != v.recipient)
  {
    if s.config.Some? {
      RelayerShare(v.amount, s.config.value.fee, s.config.value.precision);
    }
  }

  /**
   * What refuses a redeem once its accounts, claim and recipient are in order: a conversion that does
   * not fit panics, and so does the relayer's product; too little in custody, or no room in the
   * supply, is the token program's error; and a relayer needs an account of his own.
   */
  lemma RedeemNativeRefusals(s: State, payer: Key, token: Account, v: Vaa, recipient: Key, endpoint: Key)
    requires FeeInv(s) && v.tokenChain == 1 && Custody(Native(v.tokenAddress)) in s.balances
    requires RedeemReady(s, payer, token, v, recipient, endpoint, Native(v.tokenAddress))
    requires VaaId(v.emitterChain, v.emitterAddress, v.sequence) !in s.claims && recipient == v.recipient
    ensures var mint, r := Native(v.tokenAddress), Executed(s, RedeemNative(payer, token, v, recipient, endpoint));
            var decimals := s.mints[mint].decimals;
            var amount := v.amount * (if decimals <= 8 then 1 else Pow10(decimals - 8));
            var fits, held := decimals <= 27 && amount < 0x1_0000_0000_0000_0000, amount <= s.balances[Custody(mint)];
            var relayed, paid := payer != recipient, Ata(payer, mint) in s.balances;
            && (r == Err(Panic) <==>
                  !fits || (held && relayed && paid && amount * s.config.value.fee >= 0x1_0000_0000_0000_0000))
            && (r == Err(TokenError) <==> fits && !held)
            && (r == Err(NonExistentRelayerAta) <==> fits && held && relayed && !paid)
  {
    var decimals := s.mints[Native(v.tokenAddress)].decimals;
    ConversionMeaning(v.amount, decimals);
    if decimals <= 27 {
      RelayerShare(v.amount * Unit(decimals), s.config.value.fee, s.config.value.precision);
    }
  }

  lemma RedeemWrappedRefusals(s: State, payer: Key, token: Account, v: Vaa, recipient: Key, endpoint: Key)
    requires FeeInv(s) && v.tokenChain != 1
    requires RedeemReady(s, payer, token, v, recipient, endpoint, Wrapped(v.tokenChain, v.tokenAddress))
    requires VaaId(v.emitterChain, v.emitterAddress, v.sequence) !in s.claims && recipient == v.recipient
    ensures var mint, r := Wrapped(v.tokenChain, v.tokenAddress), Executed(s, RedeemWrapped(payer, token, v, recipient, endpoint));
            var room := s.mints[mint].supply + v.amount < 0x1_0000_0000_0000_0000;
            var relayed, paid := payer != recipient, Ata(payer, mint) in s.balances;
            && (r == Err(Panic) <==> room && relayed && paid && v.amount * s.config.value.fee >= 0x1_0000_0000_0000_0000)
            && (r == Err(TokenError) <==> !room)
            && (r == Err(NonExistentRelayerAta) <==> room && relayed && !paid)
  {
    RelayerShare(v.amount, s.config.value.fee, s.config.value.precision);
  }

  /** What a completed redeem leaves beside the balances: the transfer claimed, and its payout logged. */
  lemma RedeemLogs(s: State, i: Instruction)
    requires (i.RedeemNative? || i.RedeemWrapped?) && Executed(s, i).Ok?
    ensures var t, v := Next(s, i), i.v;
            && t == s.(balances := t.balances, mints := t.mints, claims := t.claims, payouts := t.payouts)
            && t.claims == s.claims + {VaaId(v.emitterChain, v.emitterAddress, v.sequence)}
            && |t.payouts| == |s.payouts| + 1 && t.payouts[..|s.payouts|] == s.payouts
            && t.payouts[|s.payouts|].vaa == v && t.payouts[|s.payouts|].relayer == i.payer
            && (i.RedeemNative? ==> t.mints == s.mints)
            && (i.RedeemWrapped? ==>
                  var m := Wrapped(v.tokenChain, v.tokenAddress);
                  t.mints == s.mints[m := MintInfo(s.mints[m].decimals, s.mints[m].supply + v.amount)])
  {
  }

  /** When the instructions on the configuration complete, and that they store what they are given. */
  lemma ConfigurationStored(s: State, owner: Key, fee: nat, precision: nat, chain: nat, address: Key, endpoint: Key)
    ensures var r := Executed(s, Initialize(owner, fee, precision));
            && (r.Ok? <==> s.config == None && fee < precision)
            && (r.Ok? ==> r.value == s.(config := Some(Config(owner, fee, precision))))
            && (r == Err(InvalidRelayerFee) <==> s.config == None && fee >= precision)
    ensures var r, owned := Executed(s, UpdateFee(owner, fee, precision)), s.config.Some? && s.config.value.owner == owner;
            && (r.Ok? <==> owned && fee < precision)
            && (r.Ok? ==> r.value == s.(config := Some(Config(owner, fee, precision))))
            && (r == Err(InvalidRelayerFee) <==> owned && fee >= precision)
    ensures var r, owned := Executed(s, RegisterContract(owner, chain, address, endpoint)), s.config.Some? && s.config.value.owner == owner;
            && (r.Ok? <==> owned && chain != 0 && chain != 1 && address != 0)
            && (r.Ok? ==> r.value == s.(foreign := s.foreign[chain := ForeignContract(chain, address, endpoint)]))
            && (r == Err(InvalidForeignContract) <==> owned && (chain == 0 || chain == 1 || address == 0))
  {
  }

  /** The dust that truncation drops never leaves the sender. */
  lemma DustStaysWithSender(s: State, payer: Key, mint: Mint, amount: nat, recipient: Key, chain: nat)
    requires amount < U64 && SentNative(s, payer, mint, amount, recipient, chain).Ok?
    ensures var t := SentNative(s, payer, mint, amount, recipient, chain).value;
            var unit, out := Unit(s.mints[mint].decimals), Balance(s.balances, Ata(payer, mint)) - Balance(t.balances, Ata(payer, mint));
            && out <= amount < out + unit
            && t.sent[|s.sent|].amount == out
            && DenormalizeAmount(NormalizeAmount(out, s.mints[mint].decimals).value, s.mints[mint].decimals) == Some(out)
  {
    AdjustmentFits(s.mints[mint].decimals);
    TruncationMeaning(amount, s.mints[mint].decimals);
  }
}
