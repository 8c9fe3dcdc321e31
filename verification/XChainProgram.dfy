/**
 * The Solana token program (solana/programs/xchain_token/src/lib.rs, guarded by the account
 * constraints in context.rs). Each instruction is stated by its net effect on the ledger, and a
 * method reaches that effect through the temporary token account, one transfer at a time.
 */
module XChainProgram {
  import opened Lists
  import opened Amounts

  /** A 32-byte key or address, as a number; 0 is the zero address. */
  type Key = nat

  const CHAIN_ID_SOLANA: nat := 1

  /** A wrapped mint's address is derived from its origin, so it is named by it. */
  datatype Mint = Native(address: Key) | Wrapped(chain: nat, address: Key)

  datatype MintInfo = MintInfo(decimals: nat, supply: nat)

  /** Token accounts whose addresses the program derives. */
  datatype Account = Ata(owner: Key, mint: Mint) | Custody(mint: Mint) | Tmp(mint: Mint)

  datatype Config = Config(owner: Key, fee: nat, precision: nat)

  datatype ForeignContract = ForeignContract(chain: nat, address: Key, endpoint: Key)

  /** A posted transfer with its payload already parsed. */
  datatype Vaa = Vaa(
    emitterChain: nat, emitterAddress: Key, sequence: nat,
    fromAddress: Key, amount: nat, tokenChain: nat, tokenAddress: Key,
    to: Key, toChain: nat, recipient: Key)

  /** What the bridge's claim account is derived from. */
  datatype VaaId = VaaId(emitterChain: nat, emitterAddress: Key, sequence: nat)

  datatype Sent = Sent(mint: Mint, amount: nat, toChain: nat, contract: Key, recipient: Key)

  datatype Payout = Payout(vaa: Vaa, mint: Mint, amount: nat, relayer: Key, share: nat)

  datatype State = State(
    programId: Key,
    redeemerKey: Key,
    config: Option<Config>,
    foreign: map<nat, ForeignContract>,
    mints: map<Mint, MintInfo>,
    balances: map<Account, nat>,
    claims: set<VaaId>,
    sent: seq<Sent>,
    payouts: seq<Payout>)

  datatype Error =
    | ConstraintViolated | InvalidRelayerFee | InvalidForeignContract | ZeroBridgeAmount | InvalidRecipient
    | AlreadyRedeemed | NonExistentRelayerAta | InvalidCalculation | Panic | TokenError

  datatype Result<T> = Ok(value: T) | Err(error: Error)

  function IdOf(v: Vaa): (r: VaaId) { VaaId(v.emitterChain, v.emitterAddress, v.sequence) }

  function Balance(b: map<Account, nat>, a: Account): (r: nat) { if a in b then b[a] else 0 }

  // ---------------------------------------------------------------- net effects

  function Initialized(s: State, owner: Key, fee: nat, precision: nat): (r: Result<State>) {
    if s.config.Some? then Err(ConstraintViolated)
    else if fee >= precision then Err(InvalidRelayerFee)
    else Ok(s.(config := Some(Config(owner, fee, precision))))
  }

  function Registered(s: State, owner: Key, chain: nat, address: Key, endpoint: Key): (r: Result<State>) {
    if s.config.None? || s.config.value.owner != owner then Err(ConstraintViolated)
    else if chain == 0 || chain == CHAIN_ID_SOLANA || address == 0 then Err(InvalidForeignContract)
    else Ok(s.(foreign := s.foreign[chain := ForeignContract(chain, address, endpoint)]))
  }

  function FeeUpdated(s: State, owner: Key, fee: nat, precision: nat): (r: Result<State>) {
    if s.config.None? || s.config.value.owner != owner then Err(ConstraintViolated)
    else if fee >= precision then Err(InvalidRelayerFee)
    else Ok(s.(config := Some(s.config.value.(fee := fee, precision := precision))))
  }

  predicate SendAccounts(s: State, payer: Key, mint: Mint, chain: nat) {
    && s.config.Some? && chain in s.foreign && mint in s.mints
    && Ata(payer, mint) in s.balances && Tmp(mint) !in s.balances
  }

  predicate BadRecipient(chain: nat, recipient: Key) {
    chain == 0 || chain == CHAIN_ID_SOLANA || recipient == 0
  }

  function SentNative(s: State, payer: Key, mint: Mint, amount: nat, recipient: Key, chain: nat): (r: Result<State>) {
    if !SendAccounts(s, payer, mint, chain) then Err(ConstraintViolated)
    else
      match TruncateAmount(amount, s.mints[mint].decimals)
      case None => Err(Panic)
      case Some(truncated) =>
        if truncated == 0 then Err(ZeroBridgeAmount)
        else if BadRecipient(chain, recipient) then Err(InvalidRecipient)
        else if s.balances[Ata(payer, mint)] < truncated || !mint.Native? then Err(TokenError)
        else Ok(s.(
          balances := s.balances[Ata(payer, mint) := s.balances[Ata(payer, mint)] - truncated]
                                [Custody(mint) := Balance(s.balances, Custody(mint)) + truncated],
          sent := s.sent + [Sent(mint, truncated, chain, s.foreign[chain].address, recipient)]))
  }

  function SentWrapped(s: State, payer: Key, mint: Mint, amount: nat, recipient: Key, chain: nat): (r: Result<State>) {
    if !SendAccounts(s, payer, mint, chain) || !mint.Wrapped? then Err(ConstraintViolated)
    else if amount == 0 then Err(ZeroBridgeAmount)
    else if BadRecipient(chain, recipient) then Err(InvalidRecipient)
    else if s.balances[Ata(payer, mint)] < amount || s.mints[mint].supply < amount then Err(TokenError)
    else Ok(s.(
      balances := s.balances[Ata(payer, mint) := s.balances[Ata(payer, mint)] - amount],
      mints := s.mints[mint := s.mints[mint].(supply := s.mints[mint].supply - amount)],
      sent := s.sent + [Sent(mint, amount, chain, s.foreign[chain].address, recipient)]))
  }

  /** `ForeignContract::verify` on the account derived from the VAA's emitter chain. */
  predicate FromRegistered(s: State, v: Vaa) {
    && v.emitterChain in s.foreign
    && v.emitterChain == s.foreign[v.emitterChain].chain
    && v.fromAddress == s.foreign[v.emitterChain].address
  }

  predicate RedeemAccounts(s: State, payer: Key, payerToken: Account, v: Vaa, recipient: Key, mint: Mint, endpoint: Key) {
    && s.config.Some?
    && (payer == recipient || payerToken == Ata(payer, mint))
    && FromRegistered(s, v)
    && mint in s.mints
    && Ata(recipient, mint) in s.balances && Tmp(mint) !in s.balances
    && (v.to == s.programId || v.to == s.redeemerKey)
    && v.toChain == CHAIN_ID_SOLANA
    && endpoint == s.foreign[v.emitterChain].endpoint
  }

  predicate NativeGuard(v: Vaa) { v.tokenChain == CHAIN_ID_SOLANA }

  predicate WrappedGuard(v: Vaa) { v.tokenChain != CHAIN_ID_SOLANA }

  /** The relayer's share of `amount`: nothing when the recipient redeems for himself. */
  function ShareOf(s: State, payer: Key, recipient: Key, mint: Mint, amount: nat): (r: Result<nat>)
    requires s.config.Some?
  {
    if payer == recipient then Ok(0)
    else if Ata(payer, mint) !in s.balances then Err(NonExistentRelayerAta)
    else
      match ComputeRelayerAmount(amount, s.config.value.fee, s.config.value.precision)
      case None => Err(Panic)
      case Some(share) => if share > amount then Err(TokenError) else Ok(share)
  }

  function PaidOut(b: map<Account, nat>, payer: Key, recipient: Key, mint: Mint, amount: nat, share: nat): (r: map<Account, nat>)
    requires share <= amount
  {
    var to, relay := Ata(recipient, mint), Ata(payer, mint);
    if payer == recipient then b[to := Balance(b, to) + amount]
    else b[to := Balance(b, to) + (amount - share)][relay := Balance(b, relay) + share]
  }

  function RedeemedNative(s: State, payer: Key, payerToken: Account, v: Vaa, recipient: Key, endpoint: Key): (r: Result<State>) {
    var mint := Native(v.tokenAddress);
    if !RedeemAccounts(s, payer, payerToken, v, recipient, mint, endpoint) || !NativeGuard(v)
       || Custody(mint) !in s.balances
    then Err(ConstraintViolated)
    else if IdOf(v) in s.claims then Err(AlreadyRedeemed)
    else if recipient != v.recipient then Err(InvalidRecipient)
    else
      match DenormalizeAmount(v.amount, s.mints[mint].decimals)
      case None => Err(Panic)
      case Some(amount) =>
        if s.balances[Custody(mint)] < amount then Err(TokenError)
        else
          match ShareOf(s, payer, recipient, mint, amount)
          case Err(e) => Err(e)
          case Ok(share) =>
            var released := s.balances[Custody(mint) := s.balances[Custody(mint)] - amount];
            Ok(s.(
              balances := PaidOut(released, payer, recipient, mint, amount, share),
              claims := s.claims + {IdOf(v)},
              payouts := s.payouts + [Payout(v, mint, amount, payer, share)]))
  }

  function RedeemedWrapped(s: State, payer: Key, payerToken: Account, v: Vaa, recipient: Key, endpoint: Key): (r: Result<State>) {
    var mint := Wrapped(v.tokenChain, v.tokenAddress);
    if !RedeemAccounts(s, payer, payerToken, v, recipient, mint, endpoint) || !WrappedGuard(v)
    then Err(ConstraintViolated)
    else if IdOf(v) in s.claims then Err(AlreadyRedeemed)
    else if recipient != v.recipient then Err(InvalidRecipient)
    else if s.mints[mint].supply + v.amount >= U64 then Err(TokenError)
    else
      match ShareOf(s, payer, recipient, mint, v.amount)
      case Err(e) => Err(e)
      case Ok(share) =>
        Ok(s.(
          balances := PaidOut(s.balances, payer, recipient, mint, v.amount, share),
          mints := s.mints[mint := s.mints[mint].(supply := s.mints[mint].supply + v.amount)],
          claims := s.claims + {IdOf(v)},
          payouts := s.payouts + [Payout(v, mint, v.amount, payer, share)]))
  }

  // ---------------------------------------------------------------- the program

  /** An instruction either completes with its net effect, or aborts and leaves no trace. */
  predicate Ends(before: State, after: State, r: Option<Error>, effect: Result<State>) {
    if effect.Ok? then r == None && after == effect.value
    else r == Some(effect.error) && after == before
  }

  function Transferred(b: map<Account, nat>, from: Account, to: Account, amount: nat): (r: map<Account, nat>)
    requires from in b && to in b && from != to && amount <= b[from]
  {
    b[from := b[from] - amount][to := b[to] + amount]
  }

  /** Filling a temporary account from custody and closing it again leaves only custody changed. */
  lemma ReleasedFromCustody(b: map<Account, nat>, mint: Mint, amount: nat)
    requires Tmp(mint) !in b && Custody(mint) in b && amount <= b[Custody(mint)]
    ensures Transferred(b[Tmp(mint) := 0], Custody(mint), Tmp(mint), amount) - {Tmp(mint)}
         == b[Custody(mint) := b[Custody(mint)] - amount]
  {
  }

  class Program {
    const programId: Key
    const redeemerKey: Key
    var config: Option<Config>
    var foreign: map<nat, ForeignContract>
    var mints: map<Mint, MintInfo>
    var balances: map<Account, nat>
    var claims: set<VaaId>
    var sent: seq<Sent>
    var payouts: seq<Payout>

    function Ledger(): (r: State)
      reads this
    {
      State(programId, redeemerKey, config, foreign, mints, balances, claims, sent, payouts)
    }

    constructor (programId: Key, redeemerKey: Key, mints: map<Mint, MintInfo>, balances: map<Account, nat>)
      ensures Ledger() == State(programId, redeemerKey, None, map[], mints, balances, {}, [], [])
    {
      this.programId, this.redeemerKey := programId, redeemerKey;
      this.mints, this.balances := mints, balances;
      config, foreign, claims, sent, payouts := None, map[], {}, [], [];
    }

    method Initialize(owner: Key, fee: nat, precision: nat) returns (r: Option<Error>)
      modifies this
      ensures Ends(old(Ledger()), Ledger(), r, Initialized(old(Ledger()), owner, fee, precision))
    {
      if config.Some? {
        return Some(ConstraintViolated);
      }
      if !(fee < precision) {
        return Some(InvalidRelayerFee);
      }
      config := Some(Config(owner, fee, precision));
      return None;
    }

    method RegisterForeignContract(owner: Key, chain: nat, address: Key, endpoint: Key) returns (r: Option<Error>)
      modifies this
      ensures Ends(old(Ledger()), Ledger(), r, Registered(old(Ledger()), owner, chain, address, endpoint))
    {
      if config.None? || config.value.owner != owner {
        return Some(ConstraintViolated);
      }
      if !(chain > 0 && chain != CHAIN_ID_SOLANA && address != 0) {
        return Some(InvalidForeignContract);
      }
      foreign := foreign[chain := ForeignContract(chain, address, endpoint)];
      return None;
    }

    method UpdateRelayerFee(owner: Key, fee: nat, precision: nat) returns (r: Option<Error>)
      modifies this
      ensures Ends(old(Ledger()), Ledger(), r, FeeUpdated(old(Ledger()), owner, fee, precision))
    {
      if config.None? || config.value.owner != owner {
        return Some(ConstraintViolated);
      }
      if !(fee < precision) {
        return Some(InvalidRelayerFee);
      }
      config := Some(config.value.(fee := fee, precision := precision));
      return None;
    }

    // ------------------------------------------------------------ token steps

    method Transfer(from: Account, to: Account, amount: nat) returns (ok: bool)
      requires from in balances && to in balances && from != to
      modifies this`balances
      ensures ok <==> amount <= old(balances[from])
      ensures balances == if ok then Transferred(old(balances), from, to, amount) else old(balances)
    {
      if balances[from] < amount {
        return false;
      }
      balances := balances[from := balances[from] - amount];
      balances := balances[to := balances[to] + amount];
      return true;
    }

    method OpenTmp(mint: Mint)
      modifies this`balances
      ensures balances == old(balances)[Tmp(mint) := 0]
    {
      balances := balances[Tmp(mint) := 0];
    }

    /** Closing fails while the account holds tokens. */
    method CloseTmp(mint: Mint) returns (ok: bool)
      requires Tmp(mint) in balances
      modifies this`balances
      ensures ok <==> old(balances[Tmp(mint)]) == 0
      ensures balances == if ok then old(balances) - {Tmp(mint)} else old(balances)
    {
      if balances[Tmp(mint)] != 0 {
        return false;
      }
      balances := balances - {Tmp(mint)};
      return true;
    }

    // ------------------------------------------------------------ sending

    method SendNativeTokensWithPayload(payer: Key, mint: Mint, amount: nat, recipient: Key, chain: nat)
      returns (r: Option<Error>)
      modifies this
      ensures Ends(old(Ledger()), Ledger(), r, SentNative(old(Ledger()), payer, mint, amount, recipient, chain))
    {
      var from, tmp, custody, before := Ata(payer, mint), Tmp(mint), Custody(mint), balances;
      if !(config.Some? && chain in foreign && mint in mints && from in balances && tmp !in balances) {
        return Some(ConstraintViolated);
      }
      OpenTmp(mint);
      var truncated := TruncateAmount(amount, mints[mint].decimals);
      if truncated.None? || truncated.value == 0 || BadRecipient(chain, recipient) {
        balances := before;
        return Some(if truncated.None? then Panic else if truncated.value == 0 then ZeroBridgeAmount else InvalidRecipient);
      }
      var ok := Transfer(from, tmp, truncated.value);
      if !ok || !mint.Native? {
        balances := before;
        return Some(TokenError);
      }
      // The bridge opens its custody account for the mint if it has none yet.
      if custody !in balances {
        balances := balances[custody := 0];
      }
      ok := Transfer(tmp, custody, truncated.value);
      sent := sent + [Sent(mint, truncated.value, chain, foreign[chain].address, recipient)];
      ok := CloseTmp(mint);
      assert balances == before[from := before[from] - truncated.value]
                               [custody := Balance(before, custody) + truncated.value];
      return None;
    }

    method SendWrappedTokensWithPayload(payer: Key, mint: Mint, amount: nat, recipient: Key, chain: nat)
      returns (r: Option<Error>)
      modifies this
      ensures Ends(old(Ledger()), Ledger(), r, SentWrapped(old(Ledger()), payer, mint, amount, recipient, chain))
    {
      var from, tmp, before := Ata(payer, mint), Tmp(mint), balances;
      if !(config.Some? && chain in foreign && mint in mints && from in balances && tmp !in balances && mint.Wrapped?) {
        return Some(ConstraintViolated);
      }
      OpenTmp(mint);
      if amount == 0 || BadRecipient(chain, recipient) {
        balances := before;
        return Some(if amount == 0 then ZeroBridgeAmount else InvalidRecipient);
      }
      var ok := Transfer(from, tmp, amount);
      if !ok || mints[mint].supply < amount {
        balances := before;
        return Some(TokenError);
      }
      // The bridge burns the tokens.
      balances := balances[tmp := balances[tmp] - amount];
      mints := mints[mint := mints[mint].(supply := mints[mint].supply - amount)];
      sent := sent + [Sent(mint, amount, chain, foreign[chain].address, recipient)];
      ok := CloseTmp(mint);
      assert balances == before[from := before[from] - amount];
      return None;
    }

    // ------------------------------------------------------------ redeeming

    /**
     * From a temporary account that holds `amount` to the relayer and the recipient, then closed.
     * On an error the balances are left as they are, for the caller to restore.
     */
    method PayFromTmp(payer: Key, recipient: Key, mint: Mint, amount: nat) returns (share: nat, r: Option<Error>)
      requires config.Some? && Tmp(mint) in balances && balances[Tmp(mint)] == amount
      requires Ata(recipient, mint) in balances
      modifies this`balances
      ensures var effect := ShareOf(old(Ledger()), payer, recipient, mint, amount);
              match effect
              case Err(e) => r == Some(e)
              case Ok(s) =>
                r == None && share == s
                && balances == PaidOut(old(balances) - {Tmp(mint)}, payer, recipient, mint, amount, s)
    {
      var tmp, to, relay, before := Tmp(mint), Ata(recipient, mint), Ata(payer, mint), balances;
      share := 0;
      if payer != recipient {
        if relay !in balances {
          return share, Some(NonExistentRelayerAta);
        }
        var computed := ComputeRelayerAmount(amount, config.value.fee, config.value.precision);
        if computed.None? {
          return share, Some(Panic);
        }
        share := computed.value;
        if share > 0 {
          var paid := Transfer(tmp, relay, share);
          if !paid {
            return share, Some(TokenError);
          }
        }
        // The source's checked subtraction cannot fail here: the transfer above would have.
        assert share <= amount;
      }
      var ok := Transfer(tmp, to, amount - share);
      ok := CloseTmp(mint);
      assert balances == PaidOut(before - {tmp}, payer, recipient, mint, amount, share);
      return share, None;
    }

    method RedeemNativeTransferWithPayload(payer: Key, payerToken: Account, v: Vaa, recipient: Key, endpoint: Key)
      returns (r: Option<Error>)
      modifies this
      ensures Ends(old(Ledger()), Ledger(), r, RedeemedNative(old(Ledger()), payer, payerToken, v, recipient, endpoint))
    {
      var mint := Native(v.tokenAddress);
      var tmp, custody, before := Tmp(mint), Custody(mint), balances;
      if !RedeemAccounts(Ledger(), payer, payerToken, v, recipient, mint, endpoint) || !NativeGuard(v)
         || custody !in balances {
        return Some(ConstraintViolated);
      }
      if IdOf(v) in claims {
        return Some(AlreadyRedeemed);
      }
      if recipient != v.recipient {
        return Some(InvalidRecipient);
      }
      OpenTmp(mint);
      var amount := DenormalizeAmount(v.amount, mints[mint].decimals);
      if amount.None? {
        balances := before;
        return Some(Panic);
      }
      var ok := Transfer(custody, tmp, amount.value);
      if !ok {
        balances := before;
        return Some(TokenError);
      }
      var share;
      share, r := PayFromTmp(payer, recipient, mint, amount.value);
      if r.Some? {
        balances := before;
        return;
      }
      claims := claims + {IdOf(v)};
      payouts := payouts + [Payout(v, mint, amount.value, payer, share)];
      ReleasedFromCustody(before, mint, amount.value);
    }

    method RedeemWrappedTransferWithPayload(payer: Key, payerToken: Account, v: Vaa, recipient: Key, endpoint: Key)
      returns (r: Option<Error>)
      modifies this
      ensures Ends(old(Ledger()), Ledger(), r, RedeemedWrapped(old(Ledger()), payer, payerToken, v, recipient, endpoint))
    {
      var mint := Wrapped(v.tokenChain, v.tokenAddress);
      var tmp, before := Tmp(mint), balances;
      if !RedeemAccounts(Ledger(), payer, payerToken, v, recipient, mint, endpoint) || !WrappedGuard(v) {
        return Some(ConstraintViolated);
      }
      if IdOf(v) in claims {
        return Some(AlreadyRedeemed);
      }
      if recipient != v.recipient {
        return Some(InvalidRecipient);
      }
      OpenTmp(mint);
      // The bridge mints the tokens.
      if mints[mint].supply + v.amount >= U64 {
        balances := before;
        return Some(TokenError);
      }
      balances := balances[tmp := balances[tmp] + v.amount];
      var share;
      share, r := PayFromTmp(payer, recipient, mint, v.amount);
      if r.Some? {
        balances := before;
        return;
      }
      mints := mints[mint := mints[mint].(supply := mints[mint].supply + v.amount)];
      claims := claims + {IdOf(v)};
      payouts := payouts + [Payout(v, mint, v.amount, payer, share)];
      assert before[tmp := 0][tmp := 0 + v.amount] - {tmp} == before;
    }
  }
}
