/** The two programs together: transactions, the runtime that undoes a failed one, and what
    holds over every run. */
module Custody {
  import opened ByteStrings
  import opened Sums
  import opened Solana
  import opened Bridge
  import opened Vault
  import Xmss

  datatype Transaction =
    | InitializeTx(authority: Address, mint: Address, threshold: u8, validators: seq<Address>, dailyLimit: u64)
    | BurnTx(user: Address, from: Address, amount: u64)
    | MintTx(dest: Address, amount: u64, soqTxid: Digest, signers: seq<Address>)
    | AttestTx(balance: u64, signers: seq<Address>)
    | PauseTx(authority: Address, paused: bool)
    | OpenTx(root: Digest, depth: u8, bridgeAuthority: Address, owner: Address, mint: Address)
    | WithdrawTx(root: Digest, owner: Address, dest: Address, recipient: Address, amount: u64, leafIndex: u16,
                 sig: Bytes, proof: Bytes)
    | DepositTx(root: Digest, depositor: Address, from: Address, amount: u64)
    | BridgeOutTx(root: Digest, owner: Address, bridgeState: Address, amount: u64, leafIndex: u16,
                  sig: Bytes, proof: Bytes)
    // the token program used directly
    | NewTokenAccountTx(id: Bytes, mint: Address, owner: Address)
    | TransferTx(from: Address, dest: Address, owner: Address, amount: u64)

  /** Only keys sign transactions; program-derived addresses sign inside programs. */
  predicate SignedByKeys(t: Transaction) {
    match t
    case InitializeTx(authority, _, _, _, _) => authority.Key?
    case BurnTx(user, _, _) => user.Key?
    case PauseTx(authority, _) => authority.Key?
    case OpenTx(_, _, _, owner, _) => owner.Key?
    case WithdrawTx(_, owner, _, _, _, _, _, _) => owner.Key?
    case DepositTx(_, depositor, _, _) => depositor.Key?
    case BridgeOutTx(_, owner, _, _, _, _, _) => owner.Key?
    case TransferTx(_, _, owner, _) => owner.Key?
    case _ => true
  }

  ghost function Apply(env: Env, s: State, t: Transaction, epoch: u64): Outcome
    requires WellFormed(env)
  {
    if !SignedByKeys(t) then Failed(ConstraintViolated)
    else
      match t
      case InitializeTx(authority, mint, threshold, validators, dailyLimit) =>
        Initialize(s, authority, mint, threshold, validators, dailyLimit, epoch)
      case BurnTx(user, from, amount) => Burn(s, user, from, amount, epoch)
      case MintTx(dest, amount, soqTxid, signers) => Mint(s, dest, amount, soqTxid, signers)
      case AttestTx(balance, signers) => Attest(s, balance, signers)
      case PauseTx(authority, paused) => SetPaused(s, authority, paused)
      case OpenTx(root, depth, bridgeAuthority, owner, mint) => Open(s, root, depth, bridgeAuthority, owner, mint)
      case WithdrawTx(root, owner, dest, recipient, amount, leafIndex, sig, proof) =>
        Withdraw(env, s, root, owner, dest, recipient, amount, leafIndex, sig, proof)
      case DepositTx(root, depositor, from, amount) => Deposit(s, root, depositor, from, amount)
      case BridgeOutTx(root, owner, bridgeState, amount, leafIndex, sig, proof) =>
        BridgeOut(env, s, root, owner, bridgeState, amount, leafIndex, sig, proof, epoch)
      case NewTokenAccountTx(id, mint, owner) =>
        if Key(id) in s.tokens || mint !in s.supply then Failed(ConstraintViolated)
        else Done(s.(tokens := s.tokens[Key(id) := TokenAccount(mint, owner, 0)]))
      case TransferTx(from, dest, owner, amount) =>
        var moved := Transfer(s.tokens, from, dest, owner, amount);
        if moved.None? then Failed(TokenError) else Done(s.(tokens := moved.value))
  }

  /** A failed transaction changes nothing. */
  ghost function Step(env: Env, s: State, t: Transaction, epoch: u64): State
    requires WellFormed(env)
  {
    var out := Apply(env, s, t, epoch);
    if out.Done? then out.state else s
  }

  class Runtime {
    const accounts: Accounts
    const bridge: BridgeProgram
    const vault: VaultProgram

    constructor (env: Env, s: State)
      ensures Valid() && vault.env == env && accounts.View() == s && fresh(accounts)
    {
      var accounts := new Accounts(s);
      var bridge := new BridgeProgram(accounts);
      var vault := new VaultProgram(env, bridge);
      this.accounts, this.bridge, this.vault := accounts, bridge, vault;
    }

    ghost predicate Valid() {
      bridge.accounts == accounts && vault.bridge == bridge && vault.accounts == accounts
    }

    /** Run one transaction; whatever a failed one did is undone. */
    method Submit(t: Transaction, epoch: u64) returns (err: Option<Error>)
      requires Valid() && WellFormed(vault.env)
      modifies accounts
      ensures accounts.View() == Step(vault.env, old(accounts.View()), t, epoch)
      ensures err.None? <==> Apply(vault.env, old(accounts.View()), t, epoch).Done?
    {
      hide Initialize, Burn, Mint, Attest, SetPaused, Open, Withdraw, Deposit, BridgeOut, Transfer, WellFormed;
      if !SignedByKeys(t) {
        return Some(ConstraintViolated);
      }
      var before := accounts.View();
      match t {
        case InitializeTx(authority, mint, threshold, validators, dailyLimit) =>
          err := bridge.InitializeBridge(authority, mint, threshold, validators, dailyLimit, epoch);
        case BurnTx(user, from, amount) =>
          err := bridge.BurnForRedemption(user, from, amount, epoch);
        case MintTx(dest, amount, soqTxid, signers) =>
          err := bridge.MintFromDeposit(dest, amount, soqTxid, signers);
        case AttestTx(balance, signers) =>
          err := bridge.UpdateVaultBalance(balance, signers);
        case PauseTx(authority, paused) =>
          err := bridge.SetPausedFlag(authority, paused);
        case OpenTx(root, depth, bridgeAuthority, owner, mint) =>
          err := vault.OpenXmssVault(root, depth, bridgeAuthority, owner, mint);
        case WithdrawTx(root, owner, dest, recipient, amount, leafIndex, sig, proof) =>
          err := vault.WithdrawFromVault(root, owner, dest, recipient, amount, leafIndex, sig, proof);
        case DepositTx(root, depositor, from, amount) =>
          err := vault.DepositToVault(root, depositor, from, amount);
        case BridgeOutTx(root, owner, bridgeState, amount, leafIndex, sig, proof) =>
          err := vault.BridgeOutFromVault(root, owner, bridgeState, amount, leafIndex, sig, proof, epoch);
        case NewTokenAccountTx(id, mint, owner) =>
          if Key(id) in accounts.tokens || mint !in accounts.supply {
            err := Some(ConstraintViolated);
          } else {
            accounts.tokens := accounts.tokens[Key(id) := TokenAccount(mint, owner, 0)];
            err := None;
          }
        case TransferTx(from, dest, owner, amount) =>
          var ok := accounts.TokenTransfer(from, dest, owner, amount);
          err := if ok then None else Some(TokenError);
      }
      if err.Some? {
        accounts.Restore(before);
      }
    }
  }

  // ---- runs ----

  /** No bridge, no vault and no events yet; any tokens. */
  predicate Genesis(s: State) {
    s.bridge == None && s.processed == map[] && s.vaults == map[] && s.events == []
  }

  ghost predicate IsRun(env: Env, ss: seq<State>, ts: seq<Transaction>, epochs: seq<u64>)
    requires WellFormed(env)
  {
    && |ss| == |ts| + 1 && |epochs| == |ts|
    && Genesis(ss[0])
    && forall i :: 0 <= i < |ts| ==> ss[i + 1] == Step(env, ss[i], ts[i], epochs[i])
  }

  // ---- totals over events ----

  function Total(es: seq<Event>, f: Event -> nat): nat {
    if es == [] then 0 else Total(es[..|es| - 1], f) + f(es[|es| - 1])
  }

  lemma TotalSnoc(es: seq<Event>, e: Event, f: Event -> nat)
    ensures Total(es + [e], f) == Total(es, f) + f(e)
  {
    assert (es + [e])[..|es|] == es;
  }

  function BurnedAmount(e: Event): nat {
    if e.Burned? then e.amount else 0
  }

  function BurnCount(e: Event): nat {
    if e.Burned? then 1 else 0
  }

  function MintedNet(e: Event): nat {
    if e.Minted? then e.netAmount else 0
  }

  predicate UsesKeyOf(e: Event, root: Digest) {
    (e.Withdrawn? || e.BridgedOut?) && e.root == root
  }

  function KeyUses(root: Digest): Event -> nat {
    (e: Event) => if UsesKeyOf(e, root) then 1 else 0
  }

  function BurnedIn(epoch: u64): Event -> nat {
    (e: Event) => if e.Burned? && e.epoch == epoch then e.amount else 0
  }

  // ---- what a successful transaction does ----

  /** Burn and mint events carry the fee; a burn carries the next nonce, a key use the next
      leaf index. */
  predicate WellNumbered(before: seq<Event>, e: Event) {
    match e
    case Burned(_, amount, net, fee, nonce, _) =>
      fee == amount / 1000 && net == amount - fee && amount >= MIN_TRANSFER && nonce == Total(before, BurnCount) + 1
    case Minted(_, amount, net, fee, txid) =>
      && fee == amount / 1000 && net == amount - fee && amount >= MIN_TRANSFER
      && forall i :: 0 <= i < |before| && before[i].Minted? ==> before[i].soqTxid != txid
    case Withdrawn(root, leaf, _, _) => leaf == Total(before, KeyUses(root))
    case BridgedOut(root, leaf, _) => leaf == Total(before, KeyUses(root))
  }

  predicate AllNumbered(es: seq<Event>) {
    forall i :: 0 <= i < |es| ==> WellNumbered(es[..i], es[i])
  }

  lemma NumberedSnoc(es: seq<Event>, e: Event)
    requires AllNumbered(es) && WellNumbered(es, e)
    ensures AllNumbered(es + [e])
  {
    forall i | 0 <= i < |es + [e]| ensures WellNumbered((es + [e])[..i], (es + [e])[i]) {
      assert (es + [e])[..i] == es[..i];
    }
  }

  /** The bridge's books against what was there at the start. */
  ghost predicate BooksOk(start: State, s: State) {
    && s.supply.Keys == start.supply.Keys
    && match s.bridge
       case None =>
         && s.supply == start.supply && s.processed == map[]
         && Total(s.events, BurnedAmount) == Total(s.events, BurnCount) == Total(s.events, MintedNet) == 0
       case Some(b) =>
         && b.mint in s.supply
         && s.supply[b.mint] + b.totalBurned == start.supply[b.mint] + b.totalMinted
         && (forall m :: m in s.supply && m != b.mint ==> s.supply[m] == start.supply[m])
         && b.totalBurned == Total(s.events, BurnedAmount)
         && b.totalMinted == Total(s.events, MintedNet)
         && b.nonce == Total(s.events, BurnCount)
  }

  predicate TxidsRecorded(s: State) {
    forall i :: 0 <= i < |s.events| && s.events[i].Minted? ==> s.events[i].soqTxid in s.processed
  }

  predicate VaultOk(s: State, root: Digest)
    requires root in s.vaults
  {
    var v := s.vaults[root];
    && v.merkleRoot == root && 1 <= v.treeDepth <= 20
    && v.leafIndex == v.totalOperations == Total(s.events, KeyUses(root))
    && v.leafIndex <= MaxSignatures(v.treeDepth)
    && v.tokenAccount == VaultAta(root, v.tokenMint) && v.tokenAccount in s.tokens
    && s.tokens[v.tokenAccount].mint == v.tokenMint && s.tokens[v.tokenAccount].owner == VaultPda(root)
  }

  ghost predicate VaultsOk(s: State) {
    && (forall root :: root in s.vaults ==> VaultOk(s, root))
    && (forall root :: root !in s.vaults ==> Total(s.events, KeyUses(root)) == 0)
  }

  ghost predicate Inv(start: State, s: State) {
    BooksOk(start, s) && TxidsRecorded(s) && AllNumbered(s.events) && VaultsOk(s)
  }

  // ---- every step keeps it ----

  /** Accounts may be added and balances may change; mints and owners do not. */
  predicate SameShape(a: Tokens, b: Tokens) {
    forall k :: k in a ==> k in b && b[k].mint == a[k].mint && b[k].owner == a[k].owner
  }

  lemma VaultsStay(s: State, s': State)
    requires VaultsOk(s) && s'.vaults == s.vaults && SameShape(s.tokens, s'.tokens)
    requires forall root :: Total(s'.events, KeyUses(root)) == Total(s.events, KeyUses(root))
    ensures VaultsOk(s')
  {
    forall root | root in s'.vaults ensures VaultOk(s', root) {
      assert VaultOk(s, root);
    }
  }

  /** The events, the supply and the bridge's counters are left alone. */
  lemma QuietKeeps(start: State, s: State, s': State)
    requires Inv(start, s)
    requires s'.vaults == s.vaults && s'.supply == s.supply && s'.processed == s.processed && s'.events == s.events
    requires SameShape(s.tokens, s'.tokens)
    requires s.bridge.None? ==> s'.bridge.None?
    requires s.bridge.Some? ==>
               && s'.bridge.Some? && s'.bridge.value.mint == s.bridge.value.mint
               && s'.bridge.value.totalBurned == s.bridge.value.totalBurned
               && s'.bridge.value.totalMinted == s.bridge.value.totalMinted
               && s'.bridge.value.nonce == s.bridge.value.nonce
    ensures Inv(start, s')
  {
    hide VaultsOk, WellNumbered;
    VaultsStay(s, s');
  }

  /** One event more, by which the totals move. */
  lemma EventTotals(es: seq<Event>, e: Event)
    ensures Total(es + [e], BurnedAmount) == Total(es, BurnedAmount) + BurnedAmount(e)
    ensures Total(es + [e], BurnCount) == Total(es, BurnCount) + BurnCount(e)
    ensures Total(es + [e], MintedNet) == Total(es, MintedNet) + MintedNet(e)
    ensures forall root :: Total(es + [e], KeyUses(root))
                        == Total(es, KeyUses(root)) + (if UsesKeyOf(e, root) then 1 else 0)
  {
    TotalSnoc(es, e, BurnedAmount);
    TotalSnoc(es, e, BurnCount);
    TotalSnoc(es, e, MintedNet);
    forall root
      ensures Total(es + [e], KeyUses(root)) == Total(es, KeyUses(root)) + (if UsesKeyOf(e, root) then 1 else 0)
    {
      TotalSnoc(es, e, KeyUses(root));
    }
  }

  lemma BurnKeeps(start: State, s: State, user: Address, from: Address, amount: u64, epoch: u64)
    requires Inv(start, s) && Burn(s, user, from, amount, epoch).Done?
    ensures Inv(start, Burn(s, user, from, amount, epoch).state)
  {
    hide VaultsOk, Total, TxidsRecorded;
    var s' := Burn(s, user, from, amount, epoch).state;
    var e := s'.events[|s.events|];
    EventTotals(s.events, e);
    NumberedSnoc(s.events, e);
    VaultsStay(s, s');
    NoNewTxid(s, s', e);
  }

  lemma NoNewTxid(s: State, s': State, e: Event)
    requires TxidsRecorded(s) && s'.processed == s.processed && s'.events == s.events + [e] && !e.Minted?
    ensures TxidsRecorded(s')
  {
  }

  lemma MintKeeps(start: State, s: State, dest: Address, amount: u64, soqTxid: Digest, signers: seq<Address>)
    requires Inv(start, s) && Mint(s, dest, amount, soqTxid, signers).Done?
    ensures Inv(start, Mint(s, dest, amount, soqTxid, signers).state)
  {
    hide VaultsOk, Total, ListedSigners;
    var s' := Mint(s, dest, amount, soqTxid, signers).state;
    var e := s'.events[|s.events|];
    EventTotals(s.events, e);
    NumberedSnoc(s.events, e);
    VaultsStay(s, s');
  }

  lemma InitializeKeeps(start: State, s: State, authority: Address, mint: Address, threshold: u8,
                        validators: seq<Address>,
                        dailyLimit: u64, epoch: u64)
    requires Inv(start, s) && Initialize(s, authority, mint, threshold, validators, dailyLimit, epoch).Done?
    ensures Inv(start, Initialize(s, authority, mint, threshold, validators, dailyLimit, epoch).state)
  {
    hide VaultsOk, Total, WellNumbered;
    VaultsStay(s, Initialize(s, authority, mint, threshold, validators, dailyLimit, epoch).state);
  }

  lemma OpenKeeps(start: State, s: State, root: Digest, depth: u8, bridgeAuthority: Address, owner: Address,
                  mint: Address)
    requires Inv(start, s) && Open(s, root, depth, bridgeAuthority, owner, mint).Done?
    ensures Inv(start, Open(s, root, depth, bridgeAuthority, owner, mint).state)
  {
    hide Total, WellNumbered, BooksOk, MaxSignatures;
    var s' := Open(s, root, depth, bridgeAuthority, owner, mint).state;
    SignaturesFitTree(depth);
    forall r | r in s'.vaults ensures VaultOk(s', r) {
      if r != root {
        assert VaultOk(s, r);
      }
    }
    OpenBooks(start, s, s');
  }

  lemma OpenBooks(start: State, s: State, s': State)
    requires BooksOk(start, s)
    requires s'.bridge == s.bridge && s'.supply == s.supply && s'.processed == s.processed && s'.events == s.events
    ensures BooksOk(start, s')
  {
  }

  /** A key has been used: both counters and the events move on together, below the limit. */
  lemma UseKeeps(start: State, s: State, s': State, root: Digest, e: Event)
    requires Inv(start, s) && root in s.vaults && !IsExhausted(s.vaults[root])
    requires UsesKeyOf(e, root) && e.leafIndex == s.vaults[root].leafIndex
    requires Advance(s.vaults[root]).Some?
    requires s' == s.(vaults := s.vaults[root := Advance(s.vaults[root]).value], tokens := s'.tokens,
        events := s.events + [e])
    requires SameShape(s.tokens, s'.tokens)
    ensures Inv(start, s')
  {
    hide Total, MaxSignatures;
    EventTotals(s.events, e);
    assert VaultOk(s, root);
    NumberedSnoc(s.events, e);
    forall r | r in s'.vaults ensures VaultOk(s', r) {
      assert VaultOk(s, r);
    }
  }

  lemma TransferShape(tokens: Tokens, from: Address, dest: Address, authority: Address, amount: u64)
    requires Transfer(tokens, from, dest, authority, amount).Some?
    ensures SameShape(tokens, Transfer(tokens, from, dest, authority, amount).value)
  {
  }

  lemma BurnVaults(s: State, user: Address, from: Address, amount: u64, epoch: u64)
    requires Burn(s, user, from, amount, epoch).Done?
    ensures var s' := Burn(s, user, from, amount, epoch).state;
            s'.vaults == s.vaults && s'.processed == s.processed && SameShape(s.tokens, s'.tokens)
  {
  }

  lemma WithdrawKeeps(env: Env, start: State, s: State, t: Transaction)
    requires WellFormed(env) && Inv(start, s) && t.WithdrawTx?
    requires Apply(env, s, t, 0).Done?
    ensures Inv(start, Apply(env, s, t, 0).state)
  {
    hide WellFormed, Inv, Transfer, KeyError, IsExhausted, Advance;
    var s' := Apply(env, s, t, 0).state;
    var v := s.vaults[t.root];
    TransferShape(s.tokens, v.tokenAccount, t.dest, VaultPda(t.root), t.amount);
    UseKeeps(start, s, s', t.root, Withdrawn(t.root, t.leafIndex, t.amount, t.recipient));
  }

  lemma BridgeOutKeeps(env: Env, start: State, s: State, t: Transaction, epoch: u64)
    requires WellFormed(env) && Inv(start, s) && t.BridgeOutTx?
    requires Apply(env, s, t, epoch).Done?
    ensures Inv(start, Apply(env, s, t, epoch).state)
  {
    hide WellFormed, Inv, Burn, KeyError, IsExhausted, Advance;
    var s' := Apply(env, s, t, epoch).state;
    var v := s.vaults[t.root];
    var burned := Burn(s, VaultPda(t.root), v.tokenAccount, t.amount, epoch).state;
    BurnKeeps(start, s, VaultPda(t.root), v.tokenAccount, t.amount, epoch);
    BurnVaults(s, VaultPda(t.root), v.tokenAccount, t.amount, epoch);
    UseKeeps(start, burned, s', t.root, BridgedOut(t.root, t.leafIndex, t.amount));
  }

  lemma StepKeeps(env: Env, start: State, s: State, t: Transaction, epoch: u64)
    requires WellFormed(env) && Inv(start, s)
    ensures Inv(start, Step(env, s, t, epoch))
  {
    hide WellFormed, Inv, Burn, Mint, Initialize, Open, Withdraw, BridgeOut, Transfer;
    if Apply(env, s, t, epoch).Done? {
      match t
      case InitializeTx(authority, mint, threshold, validators, dailyLimit) =>
        InitializeKeeps(start, s, authority, mint, threshold, validators, dailyLimit, epoch);
      case BurnTx(user, from, amount) => BurnKeeps(start, s, user, from, amount, epoch);
      case MintTx(dest, amount, soqTxid, signers) => MintKeeps(start, s, dest, amount, soqTxid, signers);
      case OpenTx(root, depth, bridgeAuthority, owner, mint) =>
        OpenKeeps(start, s, root, depth, bridgeAuthority, owner, mint);
      case WithdrawTx(root, owner, dest, recipient, amount, leafIndex, sig, proof) => WithdrawKeeps(env, start, s, t);
      case BridgeOutTx(root, owner, bridgeState, amount, leafIndex, sig, proof) =>
        BridgeOutKeeps(env, start, s, t, epoch);
      case DepositTx(root, depositor, from, amount) =>
        TransferShape(s.tokens, from, s.vaults[root].tokenAccount, depositor, amount);
        QuietKeeps(start, s, Step(env, s, t, epoch));
      case TransferTx(from, dest, owner, amount) =>
        TransferShape(s.tokens, from, dest, owner, amount);
        QuietKeeps(start, s, Step(env, s, t, epoch));
      case _ => QuietKeeps(start, s, Step(env, s, t, epoch));
    }
  }

  lemma {:induction false} RunKeeps(env: Env, ss: seq<State>, ts: seq<Transaction>, epochs: seq<u64>, i: nat)
    requires WellFormed(env) && IsRun(env, ss, ts, epochs) && i < |ss|
    ensures Inv(ss[0], ss[i])
  {
    hide Inv, Step, WellFormed;
    if i == 0 {
      GenesisKeeps(ss[0]);
    } else {
      RunKeeps(env, ss, ts, epochs, i - 1);
      StepKeeps(env, ss[0], ss[i - 1], ts[i - 1], epochs[i - 1]);
    }
  }

  lemma GenesisKeeps(s: State)
    requires Genesis(s)
    ensures Inv(s, s)
  {
  }

  // ---- conservation ----

  /** Over every run: the supply is what there was, plus everything minted, less everything
      burned; each total is the sum over its events; burns are numbered without gaps; and a
      deposit mints at most once, by either instruction. */
  lemma BridgeConserves(env: Env, ss: seq<State>, ts: seq<Transaction>, epochs: seq<u64>, i: nat)
    requires WellFormed(env) && IsRun(env, ss, ts, epochs) && i < |ss| && ss[i].bridge.Some?
    ensures var b, s, start := ss[i].bridge.value, ss[i], ss[0];
            && b.mint in s.supply && b.mint in start.supply
            && s.supply[b.mint] == start.supply[b.mint] + b.totalMinted - b.totalBurned
            && b.totalMinted == Total(s.events, MintedNet)
            && b.totalBurned == Total(s.events, BurnedAmount)
            && b.nonce == Total(s.events, BurnCount)
    ensures forall a :: 0 <= a < |ss[i].events| && ss[i].events[a].Burned? ==>
                          ss[i].events[a].nonce == Total(ss[i].events[..a], BurnCount) + 1
    ensures forall a :: 0 <= a < |ss[i].events| && ss[i].events[a].Minted? ==>
                          ss[i].events[a].netAmount == ss[i].events[a].amount - ss[i].events[a].amount / 1000
    ensures forall a, c :: 0 <= a < c < |ss[i].events| && ss[i].events[a].Minted? && ss[i].events[c].Minted? ==>
                             ss[i].events[a].soqTxid != ss[i].events[c].soqTxid
  {
    hide IsRun, WellFormed, Total, VaultsOk;
    RunKeeps(env, ss, ts, epochs, i);
    var es := ss[i].events;
    forall a | 0 <= a < |es| ensures WellNumbered(es[..a], es[a]) {
    }
    forall a, c | 0 <= a < c < |es| && es[a].Minted? && es[c].Minted?
      ensures es[a].soqTxid != es[c].soqTxid
    {
      assert WellNumbered(es[..c], es[c]);
      assert es[..c][a] == es[a];
    }
  }

  function BalanceIn(mint: Address): TokenAccount -> nat {
    (t: TokenAccount) => if t.mint == mint then t.amount else 0
  }

  /** The balances of a mint's accounts add up to its supply. */
  ghost predicate SupplyMatches(s: State) {
    forall m :: m in s.supply ==> SumBy(s.tokens, BalanceIn(m)) == s.supply[m]
  }

  lemma TransferKeepsSum(tokens: Tokens, from: Address, dest: Address, authority: Address, amount: u64, m: Address)
    requires Transfer(tokens, from, dest, authority, amount).Some?
    ensures SumBy(Transfer(tokens, from, dest, authority, amount).value, BalanceIn(m)) == SumBy(tokens, BalanceIn(m))
  {
    if from != dest {
      var debited := Debit(tokens, from, amount).value;
      SumUpdate(tokens, BalanceIn(m), from, debited[from]);
      SumUpdate(debited, BalanceIn(m), dest, Credit(debited, dest, amount).value[dest]);
    }
  }

  lemma BurnKeepsSum(s: State, user: Address, from: Address, amount: u64, epoch: u64)
    requires SupplyMatches(s) && Burn(s, user, from, amount, epoch).Done?
    ensures SupplyMatches(Burn(s, user, from, amount, epoch).state)
  {
    var s' := Burn(s, user, from, amount, epoch).state;
    forall m | m in s'.supply ensures SumBy(s'.tokens, BalanceIn(m)) == s'.supply[m] {
      SumUpdate(s.tokens, BalanceIn(m), from, s'.tokens[from]);
    }
  }

  lemma MintKeepsSum(s: State, dest: Address, amount: u64, soqTxid: Digest, signers: seq<Address>)
    requires SupplyMatches(s) && Mint(s, dest, amount, soqTxid, signers).Done?
    ensures SupplyMatches(Mint(s, dest, amount, soqTxid, signers).state)
  {
    hide ListedSigners;
    var s' := Mint(s, dest, amount, soqTxid, signers).state;
    forall m | m in s'.supply ensures SumBy(s'.tokens, BalanceIn(m)) == s'.supply[m] {
      SumUpdate(s.tokens, BalanceIn(m), dest, s'.tokens[dest]);
    }
  }

  lemma NewAccountKeepsSum(tokens: Tokens, k: Address, mint: Address, owner: Address, m: Address)
    requires k !in tokens
    ensures SumBy(tokens[k := TokenAccount(mint, owner, 0)], BalanceIn(m)) == SumBy(tokens, BalanceIn(m))
  {
    SumUpdate(tokens, BalanceIn(m), k, TokenAccount(mint, owner, 0));
  }

  lemma MovesKeepSum(env: Env, s: State, t: Transaction, epoch: u64, m: Address)
    requires WellFormed(env) && Apply(env, s, t, epoch).Done?
    requires !t.BurnTx? && !t.MintTx? && !t.BridgeOutTx?
    ensures SumBy(Step(env, s, t, epoch).tokens, BalanceIn(m)) == SumBy(s.tokens, BalanceIn(m))
    ensures Step(env, s, t, epoch).supply == s.supply
  {
    hide WellFormed, Transfer, KeyError, SumBy, MaxSignatures;
    if t.OpenTx? {
      NewAccountKeepsSum(s.tokens, VaultAta(t.root, t.mint), t.mint, VaultPda(t.root), m);
    } else if t.NewTokenAccountTx? {
      NewAccountKeepsSum(s.tokens, Key(t.id), t.mint, t.owner, m);
    } else if t.WithdrawTx? {
      TransferKeepsSum(s.tokens, s.vaults[t.root].tokenAccount, t.dest, VaultPda(t.root), t.amount, m);
    } else if t.DepositTx? {
      TransferKeepsSum(s.tokens, t.from, s.vaults[t.root].tokenAccount, t.depositor, t.amount, m);
    } else if t.TransferTx? {
      TransferKeepsSum(s.tokens, t.from, t.dest, t.owner, t.amount, m);
    }
  }

  lemma StepKeepsSum(env: Env, s: State, t: Transaction, epoch: u64)
    requires WellFormed(env) && SupplyMatches(s)
    ensures SupplyMatches(Step(env, s, t, epoch))
  {
    hide WellFormed, Burn, Mint, Transfer, KeyError, SumBy, MaxSignatures;
    var s' := Step(env, s, t, epoch);
    if Apply(env, s, t, epoch).Done? {
      if t.BurnTx? {
        BurnKeepsSum(s, t.user, t.from, t.amount, epoch);
      } else if t.MintTx? {
        MintKeepsSum(s, t.dest, t.amount, t.soqTxid, t.signers);
      } else if t.BridgeOutTx? {
        BurnKeepsSum(s, VaultPda(t.root), s.vaults[t.root].tokenAccount, t.amount, epoch);
      } else {
        hide Apply, Step;
        forall m ensures SumBy(s'.tokens, BalanceIn(m)) == SumBy(s.tokens, BalanceIn(m)) {
          MovesKeepSum(env, s, t, epoch, m);
        }
        MovesKeepSum(env, s, t, epoch, BridgePda);
      }
    }
  }

  /** No transaction makes or loses tokens other than through the supply. */
  lemma {:induction false} BalancesMatchSupply(env: Env, ss: seq<State>, ts: seq<Transaction>, epochs: seq<u64>, i: nat)
    requires WellFormed(env) && IsRun(env, ss, ts, epochs) && i < |ss| && SupplyMatches(ss[0])
    ensures SupplyMatches(ss[i])
  {
    hide Step, WellFormed, SupplyMatches;
    if i > 0 {
      BalancesMatchSupply(env, ss, ts, epochs, i - 1);
      StepKeepsSum(env, ss[i - 1], ts[i - 1], epochs[i - 1]);
    }
  }

  // ---- one-time keys ----

  lemma {:induction false} TotalMonotone(es: seq<Event>, a: nat, b: nat, f: Event -> nat)
    requires a <= b <= |es|
    ensures Total(es[..a], f) <= Total(es[..b], f)
  {
    if a < b {
      TotalMonotone(es, a, b - 1, f);
      assert es[..b][..b - 1] == es[..b - 1];
    }
  }

  /** Over every run, the key uses of a vault carry the indices 0, 1, 2, ... in order, as many
      as both counters say, and no more than the tree has leaves. */
  lemma KeysUsedInOrder(env: Env, ss: seq<State>, ts: seq<Transaction>, epochs: seq<u64>, i: nat, root: Digest)
    requires WellFormed(env) && IsRun(env, ss, ts, epochs) && i < |ss| && root in ss[i].vaults
    ensures var v, es := ss[i].vaults[root], ss[i].events;
            && v.leafIndex == v.totalOperations == Total(es, KeyUses(root))
            && v.leafIndex <= MaxSignatures(v.treeDepth) <= Exp2(v.treeDepth)
            && (forall a :: 0 <= a < |es| && UsesKeyOf(es[a], root) ==>
                              es[a].leafIndex == Total(es[..a], KeyUses(root)) < v.leafIndex)
            && (forall a, c :: 0 <= a < c < |es| && UsesKeyOf(es[a], root) && UsesKeyOf(es[c], root) ==>
                                 es[a].leafIndex < es[c].leafIndex)
  {
    hide IsRun, WellFormed, BooksOk, TxidsRecorded, MaxSignatures;
    RunKeeps(env, ss, ts, epochs, i);
    var v, es := ss[i].vaults[root], ss[i].events;
    assert VaultOk(ss[i], root);
    SignaturesFitTree(v.treeDepth);
    forall a | 0 <= a < |es| && UsesKeyOf(es[a], root)
      ensures es[a].leafIndex == Total(es[..a], KeyUses(root))
      ensures Total(es[..a + 1], KeyUses(root)) == es[a].leafIndex + 1
    {
      assert WellNumbered(es[..a], es[a]);
      assert es[..a + 1][..a] == es[..a];
    }
    forall a | 0 <= a < |es| && UsesKeyOf(es[a], root)
      ensures es[a].leafIndex < v.leafIndex
    {
      TotalMonotone(es, a + 1, |es|, KeyUses(root));
      assert es[..|es|] == es;
    }
    forall a, c | 0 <= a < c < |es| && UsesKeyOf(es[a], root) && UsesKeyOf(es[c], root)
      ensures es[a].leafIndex < es[c].leafIndex
    {
      TotalMonotone(es, a + 1, c, KeyUses(root));
    }
  }

  /** At no depth does a counter overflow: the exhaustion check comes first. */
  lemma CountersNeverOverflow(env: Env, ss: seq<State>, ts: seq<Transaction>, epochs: seq<u64>, i: nat,
                              t: Transaction, epoch: u64)
    requires WellFormed(env) && IsRun(env, ss, ts, epochs) && i < |ss|
    ensures Apply(env, ss[i], t, epoch) != Failed(VaultOverflow)
  {
    hide IsRun, WellFormed, BooksOk, TxidsRecorded, MaxSignatures, Mint, Burn, Transfer, KeyError, Total;
    RunKeeps(env, ss, ts, epochs, i);
    if t.WithdrawTx? || t.BridgeOutTx? {
      if t.root in ss[i].vaults {
        assert VaultOk(ss[i], t.root);
        if t.BridgeOutTx? {
          BurnErrors(ss[i], VaultPda(t.root), ss[i].vaults[t.root].tokenAccount, t.amount, epoch);
        }
        KeyErrors(env, ss[i].vaults[t.root], t.amount, if t.WithdrawTx? then t.recipient else t.bridgeState,
                  t.leafIndex, t.sig, t.proof);
      }
    } else {
      OtherErrors(ss[i], t, epoch);
    }
  }

  lemma BurnErrors(s: State, user: Address, from: Address, amount: u64, epoch: u64)
    ensures Burn(s, user, from, amount, epoch) != Failed(VaultOverflow)
  {
  }

  lemma KeyErrors(env: Env, v: XmssVault, amount: u64, recipient: Address, leafIndex: u16, sig: Bytes, proof: Bytes)
    requires WellFormed(env)
    ensures KeyError(env, v, amount, recipient, leafIndex, sig, proof) != Some(VaultOverflow)
  {
  }

  lemma OtherErrors(s: State, t: Transaction, epoch: u64)
    ensures t.BurnTx? ==> Burn(s, t.user, t.from, t.amount, epoch) != Failed(VaultOverflow)
    ensures t.MintTx? ==> Mint(s, t.dest, t.amount, t.soqTxid, t.signers) != Failed(VaultOverflow)
  {
    hide ListedSigners;
  }

  /** End to end: while keys remain, the owner of a client-generated tree can always withdraw.
      The signature and proof its client makes for the next leaf are accepted, at every depth
      and for every amount the vault can pay. */
  lemma ClientCanWithdraw(env: Env, ss: seq<State>, ts: seq<Transaction>, epochs: seq<u64>, i: nat, seed: Bytes,
                          depth: u8,
                          owner: Address, dest: Address, recipient: Address, amount: u64, epoch: u64)
    requires WellFormed(env) && IsRun(env, ss, ts, epochs) && i < |ss|
    requires var root := Xmss.XmssRoot(env.k, seed, depth);
             && root in ss[i].vaults && ss[i].vaults[root].treeDepth == depth && ss[i].vaults[root].owner == owner
                 && owner.Key?
             && ss[i].vaults[root].isActive && !IsExhausted(ss[i].vaults[root])
             && dest in ss[i].tokens && ss[i].tokens[dest].mint == ss[i].vaults[root].tokenMint
             && Transfer(ss[i].tokens, ss[i].vaults[root].tokenAccount, dest, VaultPda(root), amount).Some?
    ensures var root := Xmss.XmssRoot(env.k, seed, depth);
            var leaf := ss[i].vaults[root].leafIndex;
            leaf < Exp2(depth) &&
            var msg := Message(env, amount, recipient, leaf);
            |msg| >= 16 &&
            Apply(env, ss[i], WithdrawTx(root, owner, dest, recipient, amount, leaf,
                Xmss.ClientSignature(env.k, seed, leaf, msg),
                                         Xmss.ClientProof(env.k, seed, depth, leaf)), epoch).Done?
  {
    hide IsRun, BooksOk, TxidsRecorded, AllNumbered, MaxSignatures, Transfer, Total, Xmss.XmssRoot,
         Xmss.ClientSignature, Xmss.ClientProof, Xmss.Authorizes, Message, Exp2;
    RunKeeps(env, ss, ts, epochs, i);
    var root := Xmss.XmssRoot(env.k, seed, depth);
    var v := ss[i].vaults[root];
    assert VaultOk(ss[i], root);
    SignaturesFitTree(depth);
    MessageLength(env, amount, recipient, v.leafIndex);
    var msg := Message(env, amount, recipient, v.leafIndex);
    Xmss.ClientIsAccepted(env.k, seed, depth, v.leafIndex, msg);
    AuthorizedLengths(env.k, root, depth, v.leafIndex, msg, Xmss.ClientSignature(env.k, seed, v.leafIndex, msg),
                      Xmss.ClientProof(env.k, seed, depth, v.leafIndex));
  }

  lemma AuthorizedLengths(k: Hash, root: Digest, depth: nat, leafIndex: nat, msg: Bytes, sig: Bytes, proof: Bytes)
    requires |msg| >= 16 && Xmss.Authorizes(k, root, depth, leafIndex, msg, sig, proof)
    ensures |sig| == Xmss.NUM_CHAINS * Xmss.HASH_LEN && |proof| == depth * Xmss.FULL_HASH_LEN
  {
  }

  // ---- whom a withdrawal pays ----

  /** A vault keeps its mint, and is opened for one that exists. */
  lemma VaultMintStep(env: Env, s: State, t: Transaction, epoch: u64, root: Digest)
    requires WellFormed(env) && root in Step(env, s, t, epoch).vaults
    ensures var m := Step(env, s, t, epoch).vaults[root].tokenMint;
            m in s.supply || (root in s.vaults && s.vaults[root].tokenMint == m)
  {
    hide Transfer, KeyError, WellFormed, MaxSignatures, ListedSigners;
  }

  lemma {:induction false} VaultMintExists(env: Env, ss: seq<State>, ts: seq<Transaction>, epochs: seq<u64>, i: nat,
                                           root: Digest)
    requires WellFormed(env) && IsRun(env, ss, ts, epochs) && i < |ss| && root in ss[i].vaults
    ensures ss[i].vaults[root].tokenMint in ss[i].supply
  {
    hide Step, WellFormed, TxidsRecorded, AllNumbered, VaultsOk, Total;
    if i > 0 {
      VaultMintStep(env, ss[i - 1], ts[i - 1], epochs[i - 1], root);
      RunKeeps(env, ss, ts, epochs, i - 1);
      RunKeeps(env, ss, ts, epochs, i);
      if root in ss[i - 1].vaults {
        VaultMintExists(env, ss, ts, epochs, i - 1, root);
      }
    }
  }

  /** Two accounts of one mint hold no more than its supply. */
  lemma TwoBalances(s: State, m: Address, a: Address, b: Address)
    requires SupplyMatches(s) && m in s.supply && a in s.tokens && b in s.tokens && a != b
    requires s.tokens[a].mint == m && s.tokens[b].mint == m
    ensures s.tokens[a].amount + s.tokens[b].amount <= s.supply[m]
  {
    SumSplit(s.tokens, BalanceIn(m), a);
    SumSplit(s.tokens - {a}, BalanceIn(m), b);
  }

  /** The same withdrawal into another account. */
  function PaidTo(t: Transaction, dest: Address): Transaction
    requires t.WithdrawTx?
  {
    WithdrawTx(t.root, t.owner, dest, t.recipient, t.amount, t.leafIndex, t.sig, t.proof)
  }

  /** The paid account is checked for its mint, and its owner is not compared with the signed
      recipient: with a signature that passes, the withdrawal succeeds into exactly the existing
      accounts of the vault's mint, whoever owns them. */
  lemma AnyAccountIsPaid(env: Env, ss: seq<State>, ts: seq<Transaction>, epochs: seq<u64>, i: nat, t: Transaction,
                         dest: Address, epoch: u64)
    requires WellFormed(env) && IsRun(env, ss, ts, epochs) && i < |ss| && SupplyMatches(ss[0])
    requires t.WithdrawTx? && Apply(env, ss[i], t, epoch).Done?
    ensures t.root in ss[i].vaults
    ensures var s, v, out := ss[i], ss[i].vaults[t.root], Apply(env, ss[i], PaidTo(t, dest), epoch);
            && (out.Done? <==> dest in s.tokens && s.tokens[dest].mint == v.tokenMint)
            && (out.Done? && dest != v.tokenAccount ==>
                  && out.state.tokens[dest].amount == s.tokens[dest].amount + t.amount
                  && out.state.tokens[v.tokenAccount].amount == s.tokens[v.tokenAccount].amount - t.amount)
  {
    hide IsRun, BooksOk, TxidsRecorded, AllNumbered, MaxSignatures, Total, WellFormed, KeyError, SupplyMatches;
    var s, v := ss[i], ss[i].vaults[t.root];
    BalancesMatchSupply(env, ss, ts, epochs, i);
    RunKeeps(env, ss, ts, epochs, i);
    assert VaultOk(s, t.root);
    VaultMintExists(env, ss, ts, epochs, i, t.root);
    if dest in s.tokens && s.tokens[dest].mint == v.tokenMint && dest != v.tokenAccount {
      TwoBalances(s, v.tokenMint, v.tokenAccount, dest);
    }
  }

  // ---- atomicity and authority ----

  /** A bridge-out either changes nothing, or burns on the bridge and uses up one key, both. */
  lemma BridgeOutIsAtomic(env: Env, s: State, t: Transaction, epoch: u64)
    requires WellFormed(env) && t.BridgeOutTx?
    ensures var s' := Step(env, s, t, epoch);
            || (s' == s && !Apply(env, s, t, epoch).Done?)
            || (&& s.bridge.Some? && s'.bridge.Some? && t.root in s.vaults && t.root in s'.vaults
                && s'.bridge.value.nonce == s.bridge.value.nonce + 1
                && s'.bridge.value.totalBurned == s.bridge.value.totalBurned + t.amount
                && s'.vaults[t.root].leafIndex == s.vaults[t.root].leafIndex + 1
                && s'.vaults[t.root].totalOperations == s.vaults[t.root].totalOperations + 1)
    ensures t.root in s.vaults && Burn(s, VaultPda(t.root), s.vaults[t.root].tokenAccount, t.amount, epoch).Failed? ==>
              Step(env, s, t, epoch) == s
  {
    hide WellFormed, KeyError, MaxSignatures;
  }

  /** Tokens leave a vault only under the next unused key of its tree: the transaction names
      that key's index and carries its signature over the amount, and uses the key up. */
  lemma VaultTokensNeedTheNextKey(env: Env, ss: seq<State>, ts: seq<Transaction>, epochs: seq<u64>, i: nat,
                                  root: Digest)
    requires WellFormed(env) && IsRun(env, ss, ts, epochs) && i < |ts| && root in ss[i].vaults
    requires |ss| == |ts| + 1
    requires ss[i].vaults[root].tokenAccount in ss[i].tokens && ss[i].vaults[root].tokenAccount in ss[i + 1].tokens
    requires var a := ss[i].vaults[root].tokenAccount;
             ss[i + 1].tokens[a].amount < ss[i].tokens[a].amount
    ensures (ts[i].WithdrawTx? || ts[i].BridgeOutTx?) && ts[i].root == root
        && ts[i].leafIndex == ss[i].vaults[root].leafIndex
    ensures var v := ss[i].vaults[root];
            && KeyError(env, v, ts[i].amount, if ts[i].WithdrawTx? then ts[i].recipient else BridgePda,
                        v.leafIndex, ts[i].sig, ts[i].proof) == None
            && ss[i + 1].tokens[v.tokenAccount].amount == ss[i].tokens[v.tokenAccount].amount - ts[i].amount
            && root in ss[i + 1].vaults && ss[i + 1].vaults[root].leafIndex == v.leafIndex + 1
  {
    hide IsRun, Inv, WellFormed, KeyError, MaxSignatures, Step, VaultOk;
    RunStep(env, ss, ts, epochs, i);
    RunKeeps(env, ss, ts, epochs, i);
    VaultOwned(ss[0], ss[i]);
    DebitNeedsKey(env, ss[i], ts[i], epochs[i], root);
  }

  lemma RunStep(env: Env, ss: seq<State>, ts: seq<Transaction>, epochs: seq<u64>, i: nat)
    requires WellFormed(env) && IsRun(env, ss, ts, epochs) && i < |ts|
    ensures |ss| == |ts| + 1 && |epochs| == |ts| && ss[i + 1] == Step(env, ss[i], ts[i], epochs[i])
  {
  }

  /** Every vault's token account belongs to that vault's own address. */
  ghost predicate VaultsOwn(s: State) {
    forall r :: r in s.vaults ==>
                  s.vaults[r].tokenAccount == VaultAta(r, s.vaults[r].tokenMint) && s.vaults[r].tokenAccount in s.tokens
                  && s.tokens[s.vaults[r].tokenAccount].owner == VaultPda(r)
  }

  lemma VaultOwned(start: State, s: State)
    requires Inv(start, s)
    ensures VaultsOwn(s)
  {
    forall r | r in s.vaults ensures VaultOk(s, r) {
    }
  }

  predicate Debited(s: State, s': State, a: Address) {
    a in s.tokens && a in s'.tokens && s'.tokens[a].amount < s.tokens[a].amount
  }

  lemma DebitNeedsKey(env: Env, s: State, t: Transaction, epoch: u64, root: Digest)
    requires WellFormed(env) && VaultsOwn(s) && root in s.vaults
    requires Debited(s, Step(env, s, t, epoch), s.vaults[root].tokenAccount)
    ensures (t.WithdrawTx? || t.BridgeOutTx?) && t.root == root && t.leafIndex == s.vaults[root].leafIndex
    ensures var v, s' := s.vaults[root], Step(env, s, t, epoch);
            && KeyError(env, v, t.amount, if t.WithdrawTx? then t.recipient else BridgePda,
                        v.leafIndex, t.sig, t.proof) == None
            && s'.tokens[v.tokenAccount].amount == s.tokens[v.tokenAccount].amount - t.amount
            && root in s'.vaults && s'.vaults[root].leafIndex == v.leafIndex + 1
  {
    hide WellFormed, KeyError, MaxSignatures, Transfer, Burn, Apply, Step;
    if t.WithdrawTx? {
      WithdrawDebits(env, s, t, epoch, root);
    } else if t.BridgeOutTx? {
      BridgeOutDebits(env, s, t, epoch, root);
    } else {
      OthersDoNotDebit(env, s, t, epoch, root);
    }
  }

  lemma WithdrawDebits(env: Env, s: State, t: Transaction, epoch: u64, root: Digest)
    requires WellFormed(env) && VaultsOwn(s) && root in s.vaults && t.WithdrawTx?
    requires Debited(s, Step(env, s, t, epoch), s.vaults[root].tokenAccount)
    ensures t.root == root && t.leafIndex == s.vaults[root].leafIndex
    ensures var v, s' := s.vaults[root], Step(env, s, t, epoch);
            && KeyError(env, v, t.amount, t.recipient, v.leafIndex, t.sig, t.proof) == None
            && s'.tokens[v.tokenAccount].amount == s.tokens[v.tokenAccount].amount - t.amount
            && root in s'.vaults && s'.vaults[root].leafIndex == v.leafIndex + 1
  {
    hide WellFormed, KeyError, MaxSignatures, Transfer;
    TransferDebits(s.tokens, s.vaults[t.root].tokenAccount, t.dest, VaultPda(t.root), t.amount,
        s.vaults[root].tokenAccount);
  }

  lemma BridgeOutDebits(env: Env, s: State, t: Transaction, epoch: u64, root: Digest)
    requires WellFormed(env) && VaultsOwn(s) && root in s.vaults && t.BridgeOutTx?
    requires Debited(s, Step(env, s, t, epoch), s.vaults[root].tokenAccount)
    ensures t.root == root && t.leafIndex == s.vaults[root].leafIndex
    ensures var v, s' := s.vaults[root], Step(env, s, t, epoch);
            && KeyError(env, v, t.amount, BridgePda, v.leafIndex, t.sig, t.proof) == None
            && s'.tokens[v.tokenAccount].amount == s.tokens[v.tokenAccount].amount - t.amount
            && root in s'.vaults && s'.vaults[root].leafIndex == v.leafIndex + 1
  {
    hide WellFormed, KeyError, MaxSignatures, Burn;
    BurnDebits(s, VaultPda(t.root), s.vaults[t.root].tokenAccount, t.amount, epoch, s.vaults[root].tokenAccount);
  }

  lemma OthersDoNotDebit(env: Env, s: State, t: Transaction, epoch: u64, root: Digest)
    requires WellFormed(env) && VaultsOwn(s) && root in s.vaults && !t.WithdrawTx? && !t.BridgeOutTx?
    ensures !Debited(s, Step(env, s, t, epoch), s.vaults[root].tokenAccount)
  {
    hide WellFormed, Transfer, Burn, Mint;
    var a := s.vaults[root].tokenAccount;
    if t.BurnTx? {
      BurnDebits(s, t.user, t.from, t.amount, epoch, a);
    } else if t.MintTx? {
      MintCredits(s, t.dest, t.amount, t.soqTxid, t.signers, a);
    } else if t.DepositTx? {
      if t.root in s.vaults {
        TransferDebits(s.tokens, t.from, s.vaults[t.root].tokenAccount, t.depositor, t.amount, a);
      }
    } else if t.TransferTx? {
      TransferDebits(s.tokens, t.from, t.dest, t.owner, t.amount, a);
    }
  }

  /** A transfer takes only from its source, which its authority owns. */
  lemma TransferDebits(tokens: Tokens, from: Address, dest: Address, authority: Address, amount: u64, a: Address)
    requires a in tokens
    ensures var moved := Transfer(tokens, from, dest, authority, amount);
            moved.Some? ==>
              && from in tokens && tokens[from].owner == authority && a in moved.value
              && (moved.value[a].amount < tokens[a].amount ==>
                    a == from && moved.value[a].amount == tokens[a].amount - amount)
  {
  }

  lemma BurnDebits(s: State, user: Address, from: Address, amount: u64, epoch: u64, a: Address)
    requires a in s.tokens
    ensures var out := Burn(s, user, from, amount, epoch);
            out.Done? ==>
              && from in s.tokens && s.tokens[from].owner == user && a in out.state.tokens
                  && out.state.vaults == s.vaults
              && (out.state.tokens[a].amount < s.tokens[a].amount ==>
                    a == from && out.state.tokens[a].amount == s.tokens[a].amount - amount)
  {
  }

  lemma MintCredits(s: State, dest: Address, amount: u64, soqTxid: Digest, signers: seq<Address>, a: Address)
    requires a in s.tokens
    ensures var out := Mint(s, dest, amount, soqTxid, signers);
            out.Done? ==> a in out.state.tokens && out.state.tokens[a].amount >= s.tokens[a].amount
  {
    hide ListedSigners;
  }

  // ---- the daily limit ----

  ghost predicate VolumeOk(s: State) {
    s.bridge.Some? ==>
      var b := s.bridge.value;
      && (forall i :: 0 <= i < |s.events| && s.events[i].Burned? ==> s.events[i].epoch <= b.lastEpoch)
      && Total(s.events, BurnedIn(b.lastEpoch)) == b.dailyVolume
      && (forall e: u64 :: Total(s.events, BurnedIn(e)) <= b.dailyLimit)
  }

  lemma {:induction false} NoneBurnedLater(es: seq<Event>, e: u64)
    requires forall i :: 0 <= i < |es| && es[i].Burned? ==> es[i].epoch < e
    ensures Total(es, BurnedIn(e)) == 0
  {
    if es != [] {
      NoneBurnedLater(es[..|es| - 1], e);
      assert es[|es| - 1] == es[|es| - 1];
    }
  }

  lemma BurnKeepsVolume(s: State, user: Address, from: Address, amount: u64, epoch: u64)
    requires VolumeOk(s) && Burn(s, user, from, amount, epoch).Done? && s.bridge.value.lastEpoch <= epoch
    ensures VolumeOk(Burn(s, user, from, amount, epoch).state)
  {
    hide Total;
    var b := s.bridge.value;
    var s' := Burn(s, user, from, amount, epoch).state;
    var ev := s'.events[|s.events|];
    if b.lastEpoch < epoch {
      NoneBurnedLater(s.events, epoch);
    }
    forall e: u64
      ensures Total(s'.events, BurnedIn(e)) == Total(s.events, BurnedIn(e)) + (if e == epoch then amount else 0)
    {
      TotalSnoc(s.events, ev, BurnedIn(e));
    }
  }

  lemma OtherEventKeepsVolume(s: State, s': State, ev: Event)
    requires VolumeOk(s) && !ev.Burned? && s'.events == s.events + [ev] && s.bridge.Some? && s'.bridge.Some?
    requires s'.bridge.value.lastEpoch == s.bridge.value.lastEpoch
        && s'.bridge.value.dailyVolume == s.bridge.value.dailyVolume
             && s'.bridge.value.dailyLimit == s.bridge.value.dailyLimit
    ensures VolumeOk(s')
  {
    hide Total;
    forall e: u64 ensures Total(s'.events, BurnedIn(e)) == Total(s.events, BurnedIn(e)) {
      TotalSnoc(s.events, ev, BurnedIn(e));
    }
  }

  /** Before the bridge exists nothing has been burned. */
  predicate NoBurnsYet(s: State) {
    s.bridge.None? ==> forall i :: 0 <= i < |s.events| ==> !s.events[i].Burned?
  }

  lemma BeginsWithNoVolume(s: State, t: Transaction, epoch: u64, env: Env)
    requires WellFormed(env) && NoBurnsYet(s) && s.bridge.None?
    ensures NoBurnsYet(Step(env, s, t, epoch)) && VolumeOk(Step(env, s, t, epoch))
    ensures var b := Step(env, s, t, epoch).bridge; b.Some? ==> b.value.lastEpoch <= epoch
  {
    hide WellFormed, KeyError, MaxSignatures, Transfer, Total;
    var s' := Step(env, s, t, epoch);
    if s'.bridge.Some? {
      forall e: u64 ensures Total(s'.events, BurnedIn(e)) == 0 {
        NoBurnsNoTotal(s'.events, e);
      }
    }
  }

  lemma {:induction false} NoBurnsNoTotal(es: seq<Event>, e: u64)
    requires forall i :: 0 <= i < |es| ==> !es[i].Burned?
    ensures Total(es, BurnedIn(e)) == 0
  {
    if es != [] {
      NoBurnsNoTotal(es[..|es| - 1], e);
      assert !es[|es| - 1].Burned?;
    }
  }

  lemma StepKeepsVolume(env: Env, s: State, t: Transaction, epoch: u64)
    requires WellFormed(env) && VolumeOk(s) && s.bridge.Some? && s.bridge.value.lastEpoch <= epoch
    ensures VolumeOk(Step(env, s, t, epoch))
    ensures Step(env, s, t, epoch).bridge.Some?
    ensures Step(env, s, t, epoch).bridge.value.lastEpoch <= epoch
    ensures Step(env, s, t, epoch).bridge.value.dailyLimit == s.bridge.value.dailyLimit
  {
    hide WellFormed, KeyError, MaxSignatures, Transfer, VolumeOk, BurnTokens, MintTokens;
    var s' := Step(env, s, t, epoch);
    if Apply(env, s, t, epoch).Done? {
      match t
      case BurnTx(user, from, amount) =>
        BurnShape(s, user, from, amount, epoch);
        BurnKeepsVolume(s, user, from, amount, epoch);
      case BridgeOutTx(root, owner, bridgeState, amount, leafIndex, sig, proof) =>
        var burned := Burn(s, VaultPda(root), s.vaults[root].tokenAccount, amount, epoch).state;
        BurnShape(s, VaultPda(root), s.vaults[root].tokenAccount, amount, epoch);
        BurnKeepsVolume(s, VaultPda(root), s.vaults[root].tokenAccount, amount, epoch);
        OtherEventKeepsVolume(burned, s', BridgedOut(root, leafIndex, amount));
      case MintTx(dest, amount, soqTxid, signers) =>
        MintShape(s, dest, amount, soqTxid, signers);
        OtherEventKeepsVolume(s, s', s'.events[|s.events|]);
      case WithdrawTx(root, owner, dest, recipient, amount, leafIndex, sig, proof) =>
        OtherEventKeepsVolume(s, s', Withdrawn(root, leafIndex, amount, recipient));
      case _ => SameVolume(s, s');
    }
  }

  lemma BurnShape(s: State, user: Address, from: Address, amount: u64, epoch: u64)
    requires Burn(s, user, from, amount, epoch).Done?
    ensures var s' := Burn(s, user, from, amount, epoch).state;
            && s.bridge.Some? && s'.bridge.Some? && s'.bridge.value.dailyLimit == s.bridge.value.dailyLimit
            && s'.bridge.value.lastEpoch == epoch
  {
  }

  lemma MintShape(s: State, dest: Address, amount: u64, soqTxid: Digest, signers: seq<Address>)
    requires Mint(s, dest, amount, soqTxid, signers).Done?
    ensures var s' := Mint(s, dest, amount, soqTxid, signers).state;
            && s.bridge.Some? && s'.bridge == Some(s.bridge.value.(totalMinted := s'.bridge.value.totalMinted))
            && |s'.events| == |s.events| + 1 && s'.events == s.events + [s'.events[|s.events|]]
            && s'.events[|s.events|].Minted?
  {
    hide ListedSigners;
  }

  lemma SameVolume(s: State, s': State)
    requires VolumeOk(s) && s.bridge.Some? && s'.bridge.Some? && s'.events == s.events
    requires s'.bridge.value.lastEpoch == s.bridge.value.lastEpoch
        && s'.bridge.value.dailyVolume == s.bridge.value.dailyVolume
             && s'.bridge.value.dailyLimit == s.bridge.value.dailyLimit
    ensures VolumeOk(s')
  {
  }

  lemma {:induction false} VolumeOverRun(env: Env, ss: seq<State>, ts: seq<Transaction>, epochs: seq<u64>, i: nat)
    requires WellFormed(env) && IsRun(env, ss, ts, epochs) && i < |ss|
    requires forall a, c :: 0 <= a <= c < |epochs| ==> epochs[a] <= epochs[c]
    ensures VolumeOk(ss[i]) && NoBurnsYet(ss[i])
    ensures ss[i].bridge.Some? ==> i > 0 && ss[i].bridge.value.lastEpoch <= epochs[i - 1]
  {
    hide WellFormed, Step, VolumeOk, NoBurnsYet;
    if i == 0 {
      GenesisVolume(ss[0]);
    } else {
      VolumeOverRun(env, ss, ts, epochs, i - 1);
      if ss[i - 1].bridge.None? {
        BeginsWithNoVolume(ss[i - 1], ts[i - 1], epochs[i - 1], env);
      } else {
        StepKeepsVolume(env, ss[i - 1], ts[i - 1], epochs[i - 1]);
        BridgeStays(ss[i]);
      }
    }
  }

  lemma BridgeStays(s: State)
    requires s.bridge.Some?
    ensures NoBurnsYet(s)
  {
  }

  lemma GenesisVolume(s: State)
    requires Genesis(s)
    ensures VolumeOk(s) && NoBurnsYet(s)
  {
  }

  /** While the clock's epochs do not go back, the burns of any one epoch stay within the
      limit the bridge was initialized with, however they are split over transactions. */
  lemma DailyLimitHolds(env: Env, ss: seq<State>, ts: seq<Transaction>, epochs: seq<u64>, i: nat, epoch: u64)
    requires WellFormed(env) && IsRun(env, ss, ts, epochs) && i < |ss| && ss[i].bridge.Some?
    requires forall a, c :: 0 <= a <= c < |epochs| ==> epochs[a] <= epochs[c]
    ensures Total(ss[i].events, BurnedIn(epoch)) <= ss[i].bridge.value.dailyLimit
  {
    hide IsRun, WellFormed;
    VolumeOverRun(env, ss, ts, epochs, i);
  }
}
