/** What the two on-chain programs stand on: fixed-width integers, addresses, the token
    program and the accounts that instructions load and store. */
module Solana {
  import opened ByteStrings

  type u8 = x: int | 0 <= x < 0x100
  type u16 = x: int | 0 <= x < 0x1_0000
  type u32 = x: int | 0 <= x < 0x1_0000_0000
  type u64 = x: int | 0 <= x < 0x1_0000_0000_0000_0000

  const U16_MAX: u16 := 0xffff
  const U64_MAX: u64 := 0xffff_ffff_ffff_ffff

  function CheckedAdd64(a: u64, b: u64): (r: Option<u64>)
    ensures r.Some? <==> a + b <= U64_MAX
    ensures r.Some? ==> r.value == a + b
  {
    if a + b <= U64_MAX then Some(a + b) else None
  }

  /** Program-derived addresses are apart from every key and from one another. */
  datatype Address = Key(id: Bytes) | BridgePda | VaultPda(root: Digest) | VaultAta(root: Digest, mint: Address)

  datatype TokenAccount = TokenAccount(mint: Address, owner: Address, amount: u64)

  datatype BridgeState = BridgeState(authority: Address, mint: Address, threshold: u8, validators: seq<Address>,
                                     totalBurned: u64, totalMinted: u64, vaultBalance: u64, dailyLimit: u64,
                                     dailyVolume: u64, lastEpoch: u64, paused: bool, nonce: u64)

  datatype ProcessedTxid = ProcessedTxid(processed: bool, soqTxid: Digest, amount: u64)

  datatype XmssVault = XmssVault(merkleRoot: Digest, leafIndex: u16, treeDepth: u8, owner: Address, tokenMint: Address,
                                 tokenAccount: Address, bridgeAuthority: Address, isActive: bool, totalOperations: u32)

  /** The emitted events that accounting is done by. */
  datatype Event =
    | Burned(user: Address, amount: u64, netAmount: u64, fee: u64, nonce: u64, epoch: u64)
    | Minted(dest: Address, amount: u64, netAmount: u64, fee: u64, soqTxid: Digest)
    | Withdrawn(root: Digest, leafIndex: u16, amount: u64, recipient: Address)
    | BridgedOut(root: Digest, leafIndex: u16, amount: u64)

  datatype Error =
    | ConstraintViolated | TokenError
    | BridgePaused | BelowMinimum | DailyLimitExceeded | InsufficientSignatures | BridgeOverflow
    | BridgeUnauthorized | ThresholdTooLow | NotEnoughValidators | TooManyValidators
    | InvalidTreeDepth | VaultInactive | VaultExhausted | LeafIndexMismatch | InvalidSignatureLength
    | ProofLengthMismatch | InvalidMerkleProof | UnauthorizedBridge | VaultOverflow

  type Tokens = map<Address, TokenAccount>

  /** Every account the programs can touch, and the events so far. */
  datatype State = State(bridge: Option<BridgeState>, processed: map<Digest, ProcessedTxid>,
                         vaults: map<Digest, XmssVault>,
                         tokens: Tokens, supply: map<Address, u64>, events: seq<Event>)

  datatype Outcome = Done(state: State) | Failed(error: Error)

  /** The chain's hash and how an address is written as 32 bytes. */
  datatype Env = Env(k: Hash, bytes: Address -> Digest)

  ghost predicate WellFormed(env: Env) {
    OutputsHave(env.k, 32)
  }

  // ---- the token program ----

  function Credit(tokens: Tokens, to: Address, amount: u64): Option<Tokens>
    requires to in tokens
  {
    var sum := CheckedAdd64(tokens[to].amount, amount);
    if sum.None? then None else Some(tokens[to := tokens[to].(amount := sum.value)])
  }

  function Debit(tokens: Tokens, from: Address, amount: u64): Option<Tokens>
    requires from in tokens
  {
    if amount > tokens[from].amount then None
    else Some(tokens[from := tokens[from].(amount := tokens[from].amount - amount)])
  }

  /** Transfer: the authority owns the source and both accounts hold the same mint. */
  function Transfer(tokens: Tokens, from: Address, dest: Address, authority: Address, amount: u64): Option<Tokens> {
    if from !in tokens || dest !in tokens || tokens[from].mint != tokens[dest].mint || tokens[from].owner != authority
       || amount > tokens[from].amount then None
    else if from == dest then Some(tokens)
    else
      var debited := Debit(tokens, from, amount);
      Credit(debited.value, dest, amount)
  }

  function BurnTokens(s: State, mint: Address, from: Address, authority: Address, amount: u64): (r: Option<State>)
    ensures r.Some? ==> r.value == s.(tokens := r.value.tokens, supply := r.value.supply)
  {
    if from !in s.tokens || mint !in s.supply || s.tokens[from].mint != mint || s.tokens[from].owner != authority
       || amount > s.tokens[from].amount || amount > s.supply[mint] then None
    else Some(s.(tokens := Debit(s.tokens, from, amount).value, supply := s.supply[mint := s.supply[mint] - amount]))
  }

  function MintTokens(s: State, mint: Address, dest: Address, amount: u64): (r: Option<State>)
    ensures r.Some? ==> r.value == s.(tokens := r.value.tokens, supply := r.value.supply)
  {
    if dest !in s.tokens || mint !in s.supply || s.tokens[dest].mint != mint then None
    else
      var credited := Credit(s.tokens, dest, amount);
      var supply := CheckedAdd64(s.supply[mint], amount);
      if credited.None? || supply.None? then None
      else Some(s.(tokens := credited.value, supply := s.supply[mint := supply.value]))
  }

  /** The store that instructions work on in place. */
  class Accounts {
    var bridge: Option<BridgeState>
    var processed: map<Digest, ProcessedTxid>
    var vaults: map<Digest, XmssVault>
    var tokens: Tokens
    var supply: map<Address, u64>
    var events: seq<Event>

    function View(): State
      reads this
    {
      State(bridge, processed, vaults, tokens, supply, events)
    }

    constructor (s: State)
      ensures View() == s
    {
      bridge, processed, vaults := s.bridge, s.processed, s.vaults;
      tokens, supply, events := s.tokens, s.supply, s.events;
    }

    /** What the runtime does with a failed transaction. */
    method Restore(s: State)
      modifies this
      ensures View() == s
    {
      bridge, processed, vaults := s.bridge, s.processed, s.vaults;
      tokens, supply, events := s.tokens, s.supply, s.events;
    }

    method TokenTransfer(from: Address, dest: Address, authority: Address, amount: u64) returns (ok: bool)
      modifies this`tokens
      ensures ok <==> Transfer(old(tokens), from, dest, authority, amount).Some?
      ensures tokens == if ok then Transfer(old(tokens), from, dest, authority, amount).value else old(tokens)
    {
      if from !in tokens || dest !in tokens || tokens[from].mint != tokens[dest].mint || tokens[from].owner != authority
         || amount > tokens[from].amount {
        return false;
      }
      if from == dest {
        return true;
      }
      if tokens[dest].amount + amount > U64_MAX {
        return false;
      }
      tokens := tokens[from := tokens[from].(amount := tokens[from].amount - amount)];
      tokens := tokens[dest := tokens[dest].(amount := tokens[dest].amount + amount)];
      return true;
    }

    method TokenBurn(mint: Address, from: Address, authority: Address, amount: u64) returns (ok: bool)
      modifies this`tokens, this`supply
      ensures ok <==> BurnTokens(old(View()), mint, from, authority, amount).Some?
      ensures View() == if ok then BurnTokens(old(View()), mint, from, authority, amount).value else old(View())
    {
      if from !in tokens || mint !in supply || tokens[from].mint != mint || tokens[from].owner != authority
         || amount > tokens[from].amount || amount > supply[mint] {
        return false;
      }
      tokens := tokens[from := tokens[from].(amount := tokens[from].amount - amount)];
      supply := supply[mint := supply[mint] - amount];
      return true;
    }

    method TokenMintTo(mint: Address, dest: Address, amount: u64) returns (ok: bool)
      modifies this`tokens, this`supply
      ensures ok <==> MintTokens(old(View()), mint, dest, amount).Some?
      ensures View() == if ok then MintTokens(old(View()), mint, dest, amount).value else old(View())
    {
      if dest !in tokens || mint !in supply || tokens[dest].mint != mint
         || tokens[dest].amount + amount > U64_MAX || supply[mint] + amount > U64_MAX {
        return false;
      }
      tokens := tokens[dest := tokens[dest].(amount := tokens[dest].amount + amount)];
      supply := supply[mint := supply[mint] + amount];
      return true;
    }
  }
}
