/** The bridge program: burns that redeem, mints backed by deposits, and the circuit breakers
    around them. */
module Bridge {
  import opened ByteStrings
  import opened Solana

  const MIN_TRANSFER: u64 := 1_000_000_000

  /** How many entries of the list name a validator; entries are counted, not validators. */
  function ListedSigners(validators: seq<Address>, signers: seq<Address>): nat {
    if signers == [] then 0
    else ListedSigners(validators, signers[..|signers| - 1]) + (if signers[|signers| - 1] in validators then 1 else 0)
  }

  function Fee(amount: u64): u64 {
    amount / 1000
  }

  // ---- what each instruction does ----

  function Initialize(s: State, authority: Address, mint: Address, threshold: u8, validators: seq<Address>,
                      dailyLimit: u64, epoch: u64): Outcome
  {
    if s.bridge.Some? || mint !in s.supply then Failed(ConstraintViolated)
    else if threshold < 2 then Failed(ThresholdTooLow)
    else if |validators| < threshold then Failed(NotEnoughValidators)
    else if |validators| > 10 then Failed(TooManyValidators)
    else Done(s.(bridge := Some(BridgeState(authority, mint, threshold, validators, 0, 0, 0,
                                            dailyLimit, 0, epoch, false, 0))))
  }

  /** The volume a burn is measured against: it starts again with every epoch. */
  function VolumeAt(b: BridgeState, epoch: u64): u64 {
    if epoch != b.lastEpoch then 0 else b.dailyVolume
  }

  function Burn(s: State, user: Address, from: Address, amount: u64, epoch: u64): Outcome {
    if s.bridge.None? || from !in s.tokens || s.tokens[from].mint != s.bridge.value.mint
       || s.tokens[from].owner != user then
      Failed(ConstraintViolated)
    else
      var b := s.bridge.value;
      if b.paused then Failed(BridgePaused)
      else if amount < MIN_TRANSFER then Failed(BelowMinimum)
      else if VolumeAt(b, epoch) + amount > b.dailyLimit
              && (VolumeAt(b, epoch) + amount <= U64_MAX || b.dailyLimit != U64_MAX) then Failed(DailyLimitExceeded)
      else
        var burned := BurnTokens(s, b.mint, from, user, amount);
        if burned.None? then Failed(TokenError)
        else if b.totalBurned + amount > U64_MAX || VolumeAt(b, epoch) + amount > U64_MAX || b.nonce == U64_MAX then
          Failed(BridgeOverflow)
        else
          var b' := b.(totalBurned := b.totalBurned + amount, dailyVolume := VolumeAt(b, epoch) + amount,
                       lastEpoch := epoch, nonce := b.nonce + 1);
          Done(burned.value.(bridge := Some(b'),
                             events := s.events + [Burned(user, amount, amount - Fee(amount), Fee(amount),
                                                          b'.nonce, epoch)]))
  }

  /** mint_from_deposit and mint_to_vault differ only in what they call the destination. */
  function Mint(s: State, dest: Address, amount: u64, soqTxid: Digest, signers: seq<Address>): Outcome {
    if s.bridge.None? || soqTxid in s.processed || dest !in s.tokens || s.tokens[dest].mint != s.bridge.value.mint then
      Failed(ConstraintViolated)
    else
      var b := s.bridge.value;
      if b.paused then Failed(BridgePaused)
      else if amount < MIN_TRANSFER then Failed(BelowMinimum)
      else if ListedSigners(b.validators, signers) < b.threshold then Failed(InsufficientSignatures)
      else
        var net := amount - Fee(amount);
        var minted := MintTokens(s, b.mint, dest, net);
        if minted.None? then Failed(TokenError)
        else if b.totalMinted + net > U64_MAX then Failed(BridgeOverflow)
        else Done(minted.value.(bridge := Some(b.(totalMinted := b.totalMinted + net)),
                                processed := s.processed[soqTxid := ProcessedTxid(true, soqTxid, amount)],
                                events := s.events + [Minted(dest, amount, net, Fee(amount), soqTxid)]))
  }

  function Attest(s: State, balance: u64, signers: seq<Address>): Outcome {
    if s.bridge.None? then Failed(ConstraintViolated)
    else if ListedSigners(s.bridge.value.validators, signers) < s.bridge.value.threshold then
        Failed(InsufficientSignatures)
    else Done(s.(bridge := Some(s.bridge.value.(vaultBalance := balance))))
  }

  function SetPaused(s: State, authority: Address, paused: bool): Outcome {
    if s.bridge.None? then Failed(ConstraintViolated)
    else if authority != s.bridge.value.authority then Failed(BridgeUnauthorized)
    else Done(s.(bridge := Some(s.bridge.value.(paused := paused))))
  }

  /** The program.  An instruction that fails may leave accounts half done; the runtime undoes
      it. */
  class BridgeProgram {
    const accounts: Accounts

    constructor (accounts: Accounts)
      ensures this.accounts == accounts
    {
      this.accounts := accounts;
    }

    method CountSigners(validators: seq<Address>, signers: seq<Address>) returns (count: nat)
      ensures count == ListedSigners(validators, signers)
    {
      count := 0;
      for i := 0 to |signers|
        invariant count == ListedSigners(validators, signers[..i])
      {
        assert signers[..i + 1][..i] == signers[..i];
        if signers[i] in validators {
          count := count + 1;
        }
      }
      assert signers[..|signers|] == signers;
    }

    method InitializeBridge(authority: Address, mint: Address, threshold: u8, validators: seq<Address>, dailyLimit: u64,
                            epoch: u64) returns (err: Option<Error>)
      modifies accounts
      ensures var out := Initialize(old(accounts.View()), authority, mint, threshold, validators, dailyLimit, epoch);
              if out.Done? then err == None && accounts.View() == out.state else err == Some(out.error)
    {
      if accounts.bridge.Some? || mint !in accounts.supply {
        return Some(ConstraintViolated);
      }
      if threshold < 2 {
        return Some(ThresholdTooLow);
      }
      if |validators| < threshold {
        return Some(NotEnoughValidators);
      }
      if |validators| > 10 {
        return Some(TooManyValidators);
      }
      accounts.bridge := Some(BridgeState(authority, mint, threshold, validators, 0, 0, 0,
                                          dailyLimit, 0, epoch, false, 0));
      return None;
    }

    method BurnForRedemption(user: Address, from: Address, amount: u64, epoch: u64) returns (err: Option<Error>)
      modifies accounts
      ensures var out := Burn(old(accounts.View()), user, from, amount, epoch);
              if out.Done? then err == None && accounts.View() == out.state else err == Some(out.error)
    {
      hide BurnTokens;
      if accounts.bridge.None? || from !in accounts.tokens || accounts.tokens[from].mint != accounts.bridge.value.mint
         || accounts.tokens[from].owner != user {
        return Some(ConstraintViolated);
      }
      var bridge := accounts.bridge.value;
      if bridge.paused {
        return Some(BridgePaused);
      }
      if amount < MIN_TRANSFER {
        return Some(BelowMinimum);
      }
      if epoch != bridge.lastEpoch {
        bridge := bridge.(dailyVolume := 0, lastEpoch := epoch);
      }
      assert bridge == accounts.bridge.value.(dailyVolume := VolumeAt(accounts.bridge.value, epoch),
                                              lastEpoch := epoch);
      var volume := CheckedAdd64(bridge.dailyVolume, amount);
      if (if volume.Some? then volume.value else U64_MAX) > bridge.dailyLimit {
        return Some(DailyLimitExceeded);
      }
      var fee := amount / 1000;
      var netAmount := amount - fee;
      var ok := accounts.TokenBurn(bridge.mint, from, user, amount);
      if !ok {
        return Some(TokenError);
      }
      var totalBurned := CheckedAdd64(bridge.totalBurned, amount);
      var nonce := CheckedAdd64(bridge.nonce, 1);
      if totalBurned.None? || volume.None? || nonce.None? {
        return Some(BridgeOverflow);
      }
      bridge := bridge.(totalBurned := totalBurned.value, dailyVolume := volume.value, nonce := nonce.value);
      accounts.bridge := Some(bridge);
      accounts.events := accounts.events + [Burned(user, amount, netAmount, fee, bridge.nonce, epoch)];
      return None;
    }

    method MintFromDeposit(dest: Address, amount: u64, soqTxid: Digest, signers: seq<Address>)
      returns (err: Option<Error>)
      modifies accounts
      ensures var out := Mint(old(accounts.View()), dest, amount, soqTxid, signers);
              if out.Done? then err == None && accounts.View() == out.state else err == Some(out.error)
    {
      hide ListedSigners;
      if accounts.bridge.None? || soqTxid in accounts.processed || dest !in accounts.tokens
         || accounts.tokens[dest].mint != accounts.bridge.value.mint {
        return Some(ConstraintViolated);
      }
      var bridge := accounts.bridge.value;
      if bridge.paused {
        return Some(BridgePaused);
      }
      if amount < MIN_TRANSFER {
        return Some(BelowMinimum);
      }
      var validSigs := CountSigners(bridge.validators, signers);
      if validSigs < bridge.threshold {
        return Some(InsufficientSignatures);
      }
      accounts.processed := accounts.processed[soqTxid := ProcessedTxid(true, soqTxid, amount)];
      var fee := amount / 1000;
      var netAmount := amount - fee;
      var ok := accounts.TokenMintTo(bridge.mint, dest, netAmount);
      if !ok {
        return Some(TokenError);
      }
      var totalMinted := CheckedAdd64(bridge.totalMinted, netAmount);
      if totalMinted.None? {
        return Some(BridgeOverflow);
      }
      accounts.bridge := Some(bridge.(totalMinted := totalMinted.value));
      accounts.events := accounts.events + [Minted(dest, amount, netAmount, fee, soqTxid)];
      return None;
    }

    method UpdateVaultBalance(balance: u64, signers: seq<Address>) returns (err: Option<Error>)
      modifies accounts
      ensures var out := Attest(old(accounts.View()), balance, signers);
              if out.Done? then err == None && accounts.View() == out.state else err == Some(out.error)
    {
      if accounts.bridge.None? {
        return Some(ConstraintViolated);
      }
      var validSigs := CountSigners(accounts.bridge.value.validators, signers);
      if validSigs < accounts.bridge.value.threshold {
        return Some(InsufficientSignatures);
      }
      accounts.bridge := Some(accounts.bridge.value.(vaultBalance := balance));
      return None;
    }

    /** pause_bridge and resume_bridge. */
    method SetPausedFlag(authority: Address, paused: bool) returns (err: Option<Error>)
      modifies accounts
      ensures var out := SetPaused(old(accounts.View()), authority, paused);
              if out.Done? then err == None && accounts.View() == out.state else err == Some(out.error)
    {
      if accounts.bridge.None? {
        return Some(ConstraintViolated);
      }
      if authority != accounts.bridge.value.authority {
        return Some(BridgeUnauthorized);
      }
      accounts.bridge := Some(accounts.bridge.value.(paused := paused));
      return None;
    }
  }
}
