/** The XMSS vault program: token custody under a tree of one-time keys, used in order. */
module Vault {
  import opened ByteStrings
  import opened Solana
  import opened Bridge
  import Xmss

  // ---- the vault's own arithmetic (state.rs) ----

  /** 1u16.checked_shl(depth), or the largest u16 when the shift is too wide. */
  function MaxSignatures(depth: u8): u16 {
    if depth < 16 then ShiftedOne(depth) else U16_MAX
  }

  function ShiftedOne(depth: u8): u16
    requires depth < 16
  {
    ShiftedOneFits(depth);
    Exp2(depth)
  }

  lemma {:induction false} ShiftedOneFits(depth: nat)
    requires depth < 16
    ensures Exp2(depth) <= 0x8000
  {
    Exp2Monotone(depth, 15);
    assert Exp2(15) == 0x8000 by {
      assert Exp2(3) == 8 && Exp2(6) == 8 * Exp2(3) && Exp2(9) == 8 * Exp2(6) && Exp2(12) == 8 * Exp2(9)
          && Exp2(15) == 8 * Exp2(12);
    }
  }

  /** The number of signatures never exceeds the number of leaves, whatever the depth. */
  lemma SignaturesFitTree(depth: u8)
    ensures 1 <= MaxSignatures(depth) <= Exp2(depth)
    ensures depth < 16 <==> MaxSignatures(depth) == Exp2(depth)
  {
    if depth >= 16 {
      Exp2Monotone(16, depth);
      assert Exp2(16) == 0x1_0000 by {
        assert Exp2(4) == 16 && Exp2(8) == 16 * Exp2(4) && Exp2(12) == 16 * Exp2(8) && Exp2(16) == 16 * Exp2(12);
      }
    } else {
      ShiftedOneFits(depth);
    }
  }

  predicate IsExhausted(v: XmssVault) {
    v.leafIndex >= MaxSignatures(v.treeDepth)
  }

  /** Whether it is the turn of that leaf's key. */
  function TurnError(v: XmssVault, leafIndex: u16): Option<Error> {
    if !v.isActive then Some(VaultInactive)
    else if IsExhausted(v) then Some(VaultExhausted)
    else if leafIndex != v.leafIndex then Some(LeafIndexMismatch)
    else None
  }

  // ---- what each instruction does ----

  function Open(s: State, root: Digest, depth: u8, bridgeAuthority: Address, owner: Address, mint: Address): Outcome {
    var ata := VaultAta(root, mint);
    if root in s.vaults || ata in s.tokens || mint !in s.supply then Failed(ConstraintViolated)
    else if depth < 1 || depth > 20 then Failed(InvalidTreeDepth)
    else
      Done(s.(vaults := s.vaults[root := XmssVault(root, 0, depth, owner, mint, ata, bridgeAuthority, true, 0)],
              tokens := s.tokens[ata := TokenAccount(mint, VaultPda(root), 0)]))
  }

  /** The message that the key of leaf `leafIndex` signs. */
  ghost function Message(env: Env, amount: u64, recipient: Address, leafIndex: u16): Bytes {
    Xmss.WithdrawalMessage(env.k, amount, env.bytes(recipient), leafIndex)
  }

  /** The checks shared by both instructions that use a key. */
  ghost function KeyError(env: Env, v: XmssVault, amount: u64, recipient: Address, leafIndex: u16,
                          sig: Bytes, proof: Bytes): Option<Error>
    requires WellFormed(env)
  {
    MessageLength(env, amount, recipient, leafIndex);
    if |sig| != Xmss.NUM_CHAINS * Xmss.HASH_LEN then Some(InvalidSignatureLength)
    else if |proof| != v.treeDepth * Xmss.FULL_HASH_LEN then Some(ProofLengthMismatch)
    else if !Xmss.Authorizes(env.k, v.merkleRoot, v.treeDepth, leafIndex, Message(env, amount, recipient, leafIndex),
        sig, proof)
      then Some(InvalidMerkleProof)
    else None
  }

  lemma MessageLength(env: Env, amount: u64, recipient: Address, leafIndex: u16)
    requires WellFormed(env)
    ensures |Message(env, amount, recipient, leafIndex)| == Xmss.HASH_LEN
  {
    Xmss.TruncatedLength(env.k);
  }

  /** Both counters go up by one, checked. */
  function Advance(v: XmssVault): Option<XmssVault> {
    if v.leafIndex == U16_MAX || v.totalOperations == 0xffff_ffff then None
    else Some(v.(leafIndex := v.leafIndex + 1, totalOperations := v.totalOperations + 1))
  }

  ghost function Withdraw(env: Env, s: State, root: Digest, owner: Address, dest: Address, recipient: Address,
                          amount: u64,
                          leafIndex: u16, sig: Bytes, proof: Bytes): Outcome
    requires WellFormed(env)
  {
    if root !in s.vaults || s.vaults[root].owner != owner
       || dest !in s.tokens || s.tokens[dest].mint != s.vaults[root].tokenMint then Failed(ConstraintViolated)
    else
      var v := s.vaults[root];
      if TurnError(v, leafIndex).Some? then Failed(TurnError(v, leafIndex).value)
      else if KeyError(env, v, amount, recipient, leafIndex, sig, proof).Some? then
        Failed(KeyError(env, v, amount, recipient, leafIndex, sig, proof).value)
      else
        var moved := Transfer(s.tokens, v.tokenAccount, dest, VaultPda(root), amount);
        if moved.None? then Failed(TokenError)
        else if Advance(v).None? then Failed(VaultOverflow)
        else Done(s.(vaults := s.vaults[root := Advance(v).value], tokens := moved.value,
                     events := s.events + [Withdrawn(root, leafIndex, amount, recipient)]))
  }

  function Deposit(s: State, root: Digest, depositor: Address, from: Address, amount: u64): Outcome {
    if root !in s.vaults || from !in s.tokens || s.tokens[from].mint != s.vaults[root].tokenMint then
        Failed(ConstraintViolated)
    else if !s.vaults[root].isActive then Failed(VaultInactive)
    else
      var moved := Transfer(s.tokens, from, s.vaults[root].tokenAccount, depositor, amount);
      if moved.None? then Failed(TokenError) else Done(s.(tokens := moved.value))
  }

  /** The burn happens inside: if it fails, so does the whole instruction. */
  ghost function BridgeOut(env: Env, s: State, root: Digest, owner: Address, bridgeState: Address, amount: u64,
                           leafIndex: u16, sig: Bytes, proof: Bytes, epoch: u64): Outcome
    requires WellFormed(env)
  {
    if root !in s.vaults || s.vaults[root].owner != owner then Failed(ConstraintViolated)
    else
      var v := s.vaults[root];
      if TurnError(v, leafIndex).Some? then Failed(TurnError(v, leafIndex).value)
      else if bridgeState != v.bridgeAuthority then Failed(UnauthorizedBridge)
      else if KeyError(env, v, amount, bridgeState, leafIndex, sig, proof).Some? then
        Failed(KeyError(env, v, amount, bridgeState, leafIndex, sig, proof).value)
      else if bridgeState != BridgePda then Failed(ConstraintViolated)
      else
        var burned := Burn(s, VaultPda(root), v.tokenAccount, amount, epoch);
        if burned.Failed? then burned
        else if Advance(v).None? then Failed(VaultOverflow)
        else Done(burned.state.(vaults := burned.state.vaults[root := Advance(v).value],
                                events := burned.state.events + [BridgedOut(root, leafIndex, amount)]))
  }

  /** The program, over the same accounts as the bridge. */
  class VaultProgram {
    const env: Env
    const accounts: Accounts
    const bridge: BridgeProgram

    constructor (env: Env, bridge: BridgeProgram)
      ensures this.env == env && this.bridge == bridge && accounts == bridge.accounts
    {
      this.env, this.bridge := env, bridge;
      accounts := bridge.accounts;
    }

    method OpenXmssVault(root: Digest, depth: u8, bridgeAuthority: Address, owner: Address, mint: Address)
      returns (err: Option<Error>)
      modifies accounts
      ensures var out := Open(old(accounts.View()), root, depth, bridgeAuthority, owner, mint);
              if out.Done? then err == None && accounts.View() == out.state else err == Some(out.error)
    {
      var ata := VaultAta(root, mint);
      if root in accounts.vaults || ata in accounts.tokens || mint !in accounts.supply {
        return Some(ConstraintViolated);
      }
      accounts.tokens := accounts.tokens[ata := TokenAccount(mint, VaultPda(root), 0)];
      if !(depth >= 1 && depth <= 20) {
        return Some(InvalidTreeDepth);
      }
      var vault := XmssVault(root, 0, depth, owner, mint, ata, bridgeAuthority, true, 0);
      accounts.vaults := accounts.vaults[root := vault];
      return None;
    }

    /** The checks at the start of both handlers. */
    method CheckTurn(vault: XmssVault, leafIndex: u16) returns (err: Option<Error>)
      ensures err == TurnError(vault, leafIndex)
    {
      if !vault.isActive {
        return Some(VaultInactive);
      }
      if IsExhausted(vault) {
        return Some(VaultExhausted);
      }
      if leafIndex != vault.leafIndex {
        return Some(LeafIndexMismatch);
      }
      return None;
    }

    /** The signature and Merkle checks, in the order of the handlers. */
    method CheckKey(vault: XmssVault, amount: u64, recipient: Address, leafIndex: u16, sig: Bytes, proof: Bytes)
      returns (err: Option<Error>)
      requires WellFormed(env)
      ensures err == KeyError(env, vault, amount, recipient, leafIndex, sig, proof)
    {
      if |sig| != Xmss.NUM_CHAINS * Xmss.HASH_LEN {
        return Some(InvalidSignatureLength);
      }
      if |proof| != vault.treeDepth * Xmss.FULL_HASH_LEN {
        return Some(ProofLengthMismatch);
      }
      U64Bytes();
      var message := Xmss.ConstructWithdrawalMessage(env.k, amount, env.bytes(recipient), leafIndex);
      MessageLength(env, amount, recipient, leafIndex);
      var ok := Xmss.CheckAuthorization(env.k, vault.merkleRoot, vault.treeDepth, leafIndex, message, sig, proof);
      return if ok then None else Some(InvalidMerkleProof);
    }

    /** The end of both handlers: the two counters, one after the other, and the event. */
    method UseKey(root: Digest, vault: XmssVault, event: Event) returns (err: Option<Error>)
      modifies accounts
      ensures Advance(vault).None? ==> err == Some(VaultOverflow)
      ensures Advance(vault).Some? ==>
                var s := old(accounts.View());
                && err == None
                && accounts.View() == s.(vaults := s.vaults[root := Advance(vault).value], events := s.events + [event])
    {
      if vault.leafIndex == U16_MAX {
        return Some(VaultOverflow);
      }
      var advanced := vault.(leafIndex := vault.leafIndex + 1);
      if vault.totalOperations == 0xffff_ffff {
        return Some(VaultOverflow);
      }
      advanced := advanced.(totalOperations := vault.totalOperations + 1);
      accounts.vaults := accounts.vaults[root := advanced];
      accounts.events := accounts.events + [event];
      return None;
    }

    /** What a withdrawal does once it is authorised. */
    method PayOut(root: Digest, vault: XmssVault, dest: Address, amount: u64, event: Event)
      returns (err: Option<Error>)
      modifies accounts
      ensures var s := old(accounts.View());
              var moved := Transfer(s.tokens, vault.tokenAccount, dest, VaultPda(root), amount);
              if moved.None? then err == Some(TokenError)
              else if Advance(vault).None? then err == Some(VaultOverflow)
              else
                && err == None
                && accounts.View() == s.(vaults := s.vaults[root := Advance(vault).value], tokens := moved.value,
                                         events := s.events + [event])
    {
      hide Transfer, Advance;
      var ok := accounts.TokenTransfer(vault.tokenAccount, dest, VaultPda(root), amount);
      if !ok {
        return Some(TokenError);
      }
      err := UseKey(root, vault, event);
    }

    method WithdrawFromVault(root: Digest, owner: Address, dest: Address, recipient: Address, amount: u64,
                             leafIndex: u16,
                             sig: Bytes, proof: Bytes) returns (err: Option<Error>)
      requires WellFormed(env)
      modifies accounts
      ensures var out := Withdraw(env, old(accounts.View()), root, owner, dest, recipient, amount, leafIndex, sig,
          proof);
              if out.Done? then err == None && accounts.View() == out.state else err == Some(out.error)
    {
      hide Transfer, KeyError, TurnError, WellFormed, Advance;
      if root !in accounts.vaults || accounts.vaults[root].owner != owner
         || dest !in accounts.tokens || accounts.tokens[dest].mint != accounts.vaults[root].tokenMint {
        return Some(ConstraintViolated);
      }
      var vault := accounts.vaults[root];
      err := CheckTurn(vault, leafIndex);
      if err.Some? {
        return err;
      }
      err := CheckKey(vault, amount, recipient, leafIndex, sig, proof);
      if err.Some? {
        return err;
      }
      err := PayOut(root, vault, dest, amount, Withdrawn(root, leafIndex, amount, recipient));
    }

    method DepositToVault(root: Digest, depositor: Address, from: Address, amount: u64) returns (err: Option<Error>)
      modifies accounts
      ensures var out := Deposit(old(accounts.View()), root, depositor, from, amount);
              if out.Done? then err == None && accounts.View() == out.state else err == Some(out.error)
    {
      if root !in accounts.vaults || from !in accounts.tokens
         || accounts.tokens[from].mint != accounts.vaults[root].tokenMint {
        return Some(ConstraintViolated);
      }
      if !accounts.vaults[root].isActive {
        return Some(VaultInactive);
      }
      var ok := accounts.TokenTransfer(from, accounts.vaults[root].tokenAccount, depositor, amount);
      return if ok then None else Some(TokenError);
    }

    method BridgeOutFromVault(root: Digest, owner: Address, bridgeState: Address, amount: u64, leafIndex: u16,
                              sig: Bytes, proof: Bytes, epoch: u64) returns (err: Option<Error>)
      requires WellFormed(env) && accounts == bridge.accounts
      modifies accounts
      ensures var out := BridgeOut(env, old(accounts.View()), root, owner, bridgeState, amount, leafIndex, sig, proof,
          epoch);
              if out.Done? then err == None && accounts.View() == out.state else err == Some(out.error)
    {
      hide Burn, KeyError, TurnError, WellFormed, Advance;
      if root !in accounts.vaults || accounts.vaults[root].owner != owner {
        return Some(ConstraintViolated);
      }
      var vault := accounts.vaults[root];
      err := CheckTurn(vault, leafIndex);
      if err.Some? {
        return err;
      }
      if bridgeState != vault.bridgeAuthority {
        return Some(UnauthorizedBridge);
      }
      err := CheckKey(vault, amount, bridgeState, leafIndex, sig, proof);
      if err.Some? {
        return err;
      }
      if bridgeState != BridgePda {
        return Some(ConstraintViolated);
      }
      err := bridge.BurnForRedemption(VaultPda(root), vault.tokenAccount, amount, epoch);
      if err.Some? {
        return err;
      }
      err := UseKey(root, vault, BridgedOut(root, leafIndex, amount));
    }
  }

  lemma U64Bytes()
    ensures Pow(256, 8) == 0x1_0000_0000_0000_0000 && Pow(256, 2) == 0x1_0000
  {
    PowAdd(256, 4, 4);
    PowAdd(256, 2, 2);
    assert Pow(256, 2) == 0x1_0000;
  }
}
