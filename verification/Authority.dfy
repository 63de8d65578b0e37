/** Who may do what on chain, over every run, told in terms of the transactions alone: whose
    signatures an event needs, which balances a transaction moves and on whose word, and what of a
    bridge and a vault can change at all. */
module Authority {
  import opened ByteStrings
  import opened Solana
  import opened Bridge
  import opened Vault
  import opened Custody
  import Xmss

  // ---- whose word an event needs ----

  /** The entries of the list that name a validator. */
  function ValidEntries(validators: seq<Address>, signers: seq<Address>): set<nat> {
    set i: nat | i < |signers| && signers[i] in validators
  }

  lemma {:induction false} ListedIsCount(validators: seq<Address>, signers: seq<Address>)
    ensures ListedSigners(validators, signers) == |ValidEntries(validators, signers)|
  {
    if signers == [] {
      assert ValidEntries(validators, signers) == {};
    } else {
      var n: nat := |signers| - 1;
      ListedIsCount(validators, signers[..n]);
      var front, all := ValidEntries(validators, signers[..n]), ValidEntries(validators, signers);
      assert all == if signers[n] in validators then front + {n} else front;
    }
  }

  predicate ThresholdMet(b: BridgeState, signers: seq<Address>) {
    |ValidEntries(b.validators, signers)| >= b.threshold
  }

  /** The signature and the proof pass for the vault's next unused key, over that payee and
      amount. */
  ghost predicate KeyPasses(env: Env, v: XmssVault, amount: u64, payee: Address, leafIndex: u16, sig: Bytes,
                            proof: Bytes)
    requires WellFormed(env)
  {
    MessageLength(env, amount, payee, leafIndex);
    && leafIndex == v.leafIndex
    && |sig| == 32 * 20 && |proof| == 32 * v.treeDepth
    && Xmss.Authorizes(env.k, v.merkleRoot, v.treeDepth, leafIndex, Message(env, amount, payee, leafIndex), sig, proof)
  }

  /** The vault's owner sent the transaction and its next key signed it. */
  ghost predicate VaultAgrees(env: Env, s: State, root: Digest, owner: Address, amount: u64, payee: Address,
                              leafIndex: u16, sig: Bytes, proof: Bytes)
    requires WellFormed(env)
  {
    && root in s.vaults && s.vaults[root].owner == owner && owner.Key? && s.vaults[root].isActive
    && KeyPasses(env, s.vaults[root], amount, payee, leafIndex, sig, proof)
  }

  /** What must have been there for the transaction to emit the event. */
  ghost predicate Authorised(env: Env, s: State, t: Transaction, epoch: u64, e: Event)
    requires WellFormed(env)
  {
    match e
    case Minted(dest, amount, _, _, soqTxid) =>
      && t.MintTx? && t.dest == dest && t.amount == amount && t.soqTxid == soqTxid && soqTxid !in s.processed
      && s.bridge.Some? && !s.bridge.value.paused && amount >= 1_000_000_000
      && ThresholdMet(s.bridge.value, t.signers)
    case Burned(user, amount, _, _, _, at) =>
      && at == epoch && s.bridge.Some? && !s.bridge.value.paused && amount >= 1_000_000_000
      && (|| (t.BurnTx? && t.user == user && user.Key? && t.amount == amount)
          || (t.BridgeOutTx? && user == VaultPda(t.root) && t.amount == amount && t.bridgeState == BridgePda
              && VaultAgrees(env, s, t.root, t.owner, amount, BridgePda, t.leafIndex, t.sig, t.proof)))
    case Withdrawn(root, leafIndex, amount, recipient) =>
      && t.WithdrawTx? && t.root == root && t.amount == amount && t.recipient == recipient
      && t.leafIndex == leafIndex
      && VaultAgrees(env, s, root, t.owner, amount, recipient, leafIndex, t.sig, t.proof)
    case BridgedOut(root, leafIndex, amount) =>
      && t.BridgeOutTx? && t.root == root && t.amount == amount && t.leafIndex == leafIndex
      && VaultAgrees(env, s, root, t.owner, amount, BridgePda, leafIndex, t.sig, t.proof)
      && t.bridgeState == BridgePda && s.vaults[root].bridgeAuthority == BridgePda
  }

  lemma PassedKey(env: Env, v: XmssVault, amount: u64, payee: Address, leafIndex: u16, sig: Bytes, proof: Bytes)
    requires WellFormed(env) && leafIndex == v.leafIndex
    requires KeyError(env, v, amount, payee, leafIndex, sig, proof).None?
    ensures KeyPasses(env, v, amount, payee, leafIndex, sig, proof)
  {
    hide WellFormed, Xmss.Authorizes, Message;
  }

  /** A step only adds events, and each of them is authorised. */
  ghost predicate EventsGrow(env: Env, s: State, t: Transaction, epoch: u64, s': State)
    requires WellFormed(env)
  {
    && s.events <= s'.events
    && forall a :: |s.events| <= a < |s'.events| ==> Authorised(env, s, t, epoch, s'.events[a])
  }

  lemma BurnEvents(s: State, user: Address, from: Address, amount: u64, epoch: u64)
    requires Burn(s, user, from, amount, epoch).Done?
    ensures var s' := Burn(s, user, from, amount, epoch).state;
            && s.bridge.Some? && !s.bridge.value.paused && amount >= 1_000_000_000
            && |s'.events| == |s.events| + 1 && s.events <= s'.events && s'.vaults == s.vaults
            && var e := s'.events[|s.events|]; e.Burned? && e.user == user && e.amount == amount && e.epoch == epoch
  {
    hide BurnTokens;
  }

  lemma MintEvents(s: State, dest: Address, amount: u64, soqTxid: Digest, signers: seq<Address>)
    requires Mint(s, dest, amount, soqTxid, signers).Done?
    ensures var s' := Mint(s, dest, amount, soqTxid, signers).state;
            && s.bridge.Some? && !s.bridge.value.paused && amount >= 1_000_000_000 && soqTxid !in s.processed
            && ThresholdMet(s.bridge.value, signers)
            && |s'.events| == |s.events| + 1 && s.events <= s'.events
            && var e := s'.events[|s.events|];
               e.Minted? && e.dest == dest && e.amount == amount && e.soqTxid == soqTxid
  {
    hide MintTokens, ListedSigners;
    ListedIsCount(s.bridge.value.validators, signers);
  }

  lemma WithdrawEvents(env: Env, s: State, t: Transaction, epoch: u64)
    requires WellFormed(env) && t.WithdrawTx? && Apply(env, s, t, epoch).Done?
    ensures EventsGrow(env, s, t, epoch, Apply(env, s, t, epoch).state)
  {
    hide WellFormed, KeyError, Transfer, Advance, IsExhausted, KeyPasses;
    PassedKey(env, s.vaults[t.root], t.amount, t.recipient, t.leafIndex, t.sig, t.proof);
  }

  lemma BridgeOutEvents(env: Env, s: State, t: Transaction, epoch: u64)
    requires WellFormed(env) && t.BridgeOutTx? && Apply(env, s, t, epoch).Done?
    ensures EventsGrow(env, s, t, epoch, Apply(env, s, t, epoch).state)
  {
    hide WellFormed, KeyError, Burn, Advance, IsExhausted, KeyPasses;
    PassedKey(env, s.vaults[t.root], t.amount, t.bridgeState, t.leafIndex, t.sig, t.proof);
    BurnEvents(s, VaultPda(t.root), s.vaults[t.root].tokenAccount, t.amount, epoch);
  }

  lemma OtherEvents(env: Env, s: State, t: Transaction, epoch: u64)
    requires WellFormed(env) && !t.WithdrawTx? && !t.BridgeOutTx? && !t.MintTx? && !t.BurnTx?
    requires Apply(env, s, t, epoch).Done?
    ensures Apply(env, s, t, epoch).state.events == s.events
  {
    hide WellFormed, Transfer, ListedSigners;
  }

  lemma StepEvents(env: Env, s: State, t: Transaction, epoch: u64)
    requires WellFormed(env)
    ensures EventsGrow(env, s, t, epoch, Step(env, s, t, epoch))
  {
    hide WellFormed, Burn, Mint, Initialize, Attest, SetPaused, Open, Withdraw, Deposit, BridgeOut, Transfer,
         VaultAgrees, ThresholdMet;
    if Apply(env, s, t, epoch).Done? {
      match t
      case BurnTx(user, from, amount) => BurnEvents(s, user, from, amount, epoch);
      case MintTx(dest, amount, soqTxid, signers) => MintEvents(s, dest, amount, soqTxid, signers);
      case WithdrawTx(_, _, _, _, _, _, _, _) => WithdrawEvents(env, s, t, epoch);
      case BridgeOutTx(_, _, _, _, _, _, _) => BridgeOutEvents(env, s, t, epoch);
      case _ => OtherEvents(env, s, t, epoch);
    }
  }

  /** Every event of a run was emitted by a transaction that had what it takes: a mint, the
      threshold of signatures by validators, on a bridge that was not paused, for a fresh txid; a
      burn, its user, or a vault's owner and next key; a withdrawal and a bridge-out, the owner and
      the next key; and both bridge events at least the minimum. */
  lemma {:induction false} EventsAreAuthorised(env: Env, ss: seq<State>, ts: seq<Transaction>, epochs: seq<u64>, i: nat,
                                               a: nat) returns (at: nat)
    requires WellFormed(env) && IsRun(env, ss, ts, epochs) && i < |ss| && a < |ss[i].events|
    ensures at < i <= |ts| && |ss| == |ts| + 1 && |epochs| == |ts| && |ss[at].events| <= a
    ensures Authorised(env, ss[at], ts[at], epochs[at], ss[i].events[a])
    decreases i
  {
    hide WellFormed, Step, Authorised;
    assert i > 0;
    StepEvents(env, ss[i - 1], ts[i - 1], epochs[i - 1]);
    if a < |ss[i - 1].events| {
      at := EventsAreAuthorised(env, ss, ts, epochs, i - 1, a);
    } else {
      at := i - 1;
    }
  }

  // ---- which balances a transaction moves ----

  /** From one account, unless the tokens are new, to another, unless they are gone. */
  datatype Move = Move(from: Option<Address>, dest: Option<Address>, amount: nat)

  /** What the transaction says. */
  function Told(s: State, t: Transaction): Move {
    match t
    case MintTx(dest, amount, _, _) => Move(None, Some(dest), amount - amount / 1000)
    case BurnTx(_, from, amount) => Move(Some(from), None, amount)
    case WithdrawTx(root, _, dest, _, amount, _, _, _) =>
      Move(if root in s.vaults then Some(s.vaults[root].tokenAccount) else None, Some(dest), amount)
    case DepositTx(root, _, from, amount) =>
      Move(Some(from), if root in s.vaults then Some(s.vaults[root].tokenAccount) else None, amount)
    case BridgeOutTx(root, _, _, amount, _, _, _) =>
      Move(if root in s.vaults then Some(s.vaults[root].tokenAccount) else None, None, amount)
    case TransferTx(from, dest, _, amount) => Move(Some(from), Some(dest), amount)
    case _ => Move(None, None, 0)
  }

  function Part(end: Option<Address>, a: Address, amount: nat): nat {
    if end == Some(a) then amount else 0
  }

  /** Every balance changes by exactly what is moved; accounts may be opened, with nothing in
      them, and stay what they are. */
  predicate MovedBy(before: Tokens, after: Tokens, m: Move) {
    && (forall a :: a in before ==>
          && a in after && after[a].mint == before[a].mint && after[a].owner == before[a].owner
          && after[a].amount + Part(m.from, a, m.amount) == before[a].amount + Part(m.dest, a, m.amount))
    && (forall a :: a in after && a !in before ==> after[a].amount == 0)
    && (m.from.Some? ==> m.from.value in before && before[m.from.value].amount >= m.amount)
    && (m.dest.Some? ==> m.dest.value in before)
    && (m.from.Some? && m.dest.Some? ==> before[m.from.value].mint == before[m.dest.value].mint)
  }

  /** The account that pays belongs to the one who signed. */
  ghost predicate OnItsOwnersWord(env: Env, s: State, t: Transaction, from: Address)
    requires WellFormed(env)
  {
    && from in s.tokens
    && match t
       case BurnTx(user, _, _) => s.tokens[from].owner == user && user.Key?
       case DepositTx(_, depositor, _, _) => s.tokens[from].owner == depositor && depositor.Key?
       case TransferTx(_, _, owner, _) => s.tokens[from].owner == owner && owner.Key?
       case WithdrawTx(root, owner, _, recipient, amount, leafIndex, sig, proof) =>
         && s.tokens[from].owner == VaultPda(root)
         && VaultAgrees(env, s, root, owner, amount, recipient, leafIndex, sig, proof)
       case BridgeOutTx(root, owner, _, amount, leafIndex, sig, proof) =>
         && s.tokens[from].owner == VaultPda(root)
         && VaultAgrees(env, s, root, owner, amount, BridgePda, leafIndex, sig, proof)
       case _ => false
  }

  lemma TransferMoves(tokens: Tokens, from: Address, dest: Address, authority: Address, amount: u64)
    requires Transfer(tokens, from, dest, authority, amount).Some?
    ensures MovedBy(tokens, Transfer(tokens, from, dest, authority, amount).value, Move(Some(from), Some(dest), amount))
    ensures from in tokens && tokens[from].owner == authority
  {
  }

  lemma BurnMoves(s: State, user: Address, from: Address, amount: u64, epoch: u64)
    requires Burn(s, user, from, amount, epoch).Done?
    ensures MovedBy(s.tokens, Burn(s, user, from, amount, epoch).state.tokens, Move(Some(from), None, amount))
    ensures from in s.tokens && s.tokens[from].owner == user
  {
  }

  lemma MintMoves(s: State, dest: Address, amount: u64, soqTxid: Digest, signers: seq<Address>)
    requires Mint(s, dest, amount, soqTxid, signers).Done?
    ensures MovedBy(s.tokens, Mint(s, dest, amount, soqTxid, signers).state.tokens,
                    Move(None, Some(dest), amount - amount / 1000))
  {
    hide ListedSigners;
  }

  lemma WithdrawMoves(env: Env, s: State, t: Transaction, epoch: u64)
    requires WellFormed(env) && t.WithdrawTx? && Apply(env, s, t, epoch).Done?
    ensures MovedBy(s.tokens, Apply(env, s, t, epoch).state.tokens, Told(s, t))
    ensures Told(s, t).from.Some? && OnItsOwnersWord(env, s, t, Told(s, t).from.value)
  {
    hide WellFormed, KeyError, Transfer, Advance, IsExhausted, KeyPasses, MovedBy;
    PassedKey(env, s.vaults[t.root], t.amount, t.recipient, t.leafIndex, t.sig, t.proof);
    TransferMoves(s.tokens, s.vaults[t.root].tokenAccount, t.dest, VaultPda(t.root), t.amount);
  }

  lemma BridgeOutMoves(env: Env, s: State, t: Transaction, epoch: u64)
    requires WellFormed(env) && t.BridgeOutTx? && Apply(env, s, t, epoch).Done?
    ensures MovedBy(s.tokens, Apply(env, s, t, epoch).state.tokens, Told(s, t))
    ensures Told(s, t).from.Some? && OnItsOwnersWord(env, s, t, Told(s, t).from.value)
  {
    hide WellFormed, KeyError, Burn, Advance, IsExhausted, KeyPasses, MovedBy;
    PassedKey(env, s.vaults[t.root], t.amount, t.bridgeState, t.leafIndex, t.sig, t.proof);
    BurnMoves(s, VaultPda(t.root), s.vaults[t.root].tokenAccount, t.amount, epoch);
  }

  lemma OtherMoves(env: Env, s: State, t: Transaction, epoch: u64)
    requires WellFormed(env) && !t.WithdrawTx? && !t.BridgeOutTx? && !t.MintTx? && !t.BurnTx?
    requires Apply(env, s, t, epoch).Done?
    ensures MovedBy(s.tokens, Apply(env, s, t, epoch).state.tokens, Told(s, t))
    ensures Told(s, t).from.Some? ==> OnItsOwnersWord(env, s, t, Told(s, t).from.value)
  {
    hide WellFormed, Transfer, ListedSigners;
    if t.DepositTx? {
      TransferMoves(s.tokens, t.from, s.vaults[t.root].tokenAccount, t.depositor, t.amount);
    } else if t.TransferTx? {
      TransferMoves(s.tokens, t.from, t.dest, t.owner, t.amount);
    }
  }

  /** A transaction that succeeds moves exactly the tokens it names, between the accounts it names,
      and takes them from nobody without his word; one that fails moves none. */
  lemma TokensMoveAsTold(env: Env, s: State, t: Transaction, epoch: u64)
    requires WellFormed(env)
    ensures Apply(env, s, t, epoch).Done? ==>
              && MovedBy(s.tokens, Step(env, s, t, epoch).tokens, Told(s, t))
              && (Told(s, t).from.Some? ==> OnItsOwnersWord(env, s, t, Told(s, t).from.value))
    ensures !Apply(env, s, t, epoch).Done? ==> Step(env, s, t, epoch).tokens == s.tokens
  {
    hide WellFormed, Burn, Mint, Initialize, Attest, SetPaused, Open, Withdraw, Deposit, BridgeOut, Transfer,
         VaultAgrees, MovedBy;
    if Apply(env, s, t, epoch).Done? {
      match t
      case BurnTx(user, from, amount) => BurnMoves(s, user, from, amount, epoch);
      case MintTx(dest, amount, soqTxid, signers) => MintMoves(s, dest, amount, soqTxid, signers);
      case WithdrawTx(_, _, _, _, _, _, _, _) => WithdrawMoves(env, s, t, epoch);
      case BridgeOutTx(_, _, _, _, _, _, _) => BridgeOutMoves(env, s, t, epoch);
      case _ => OtherMoves(env, s, t, epoch);
    }
  }

  // ---- what of a bridge and a vault can change ----

  predicate BridgeShape(b: BridgeState) {
    2 <= b.threshold <= |b.validators| <= 10
  }

  /** What was set once and for all. */
  predicate SameBridge(b: BridgeState, b': BridgeState) {
    && b'.authority == b.authority && b'.mint == b.mint && b'.threshold == b.threshold
    && b'.validators == b.validators && b'.dailyLimit == b.dailyLimit
  }

  predicate SameVault(v: XmssVault, v': XmssVault) {
    && v'.merkleRoot == v.merkleRoot && v'.treeDepth == v.treeDepth && v'.owner == v.owner
    && v'.tokenMint == v.tokenMint && v'.tokenAccount == v.tokenAccount && v'.bridgeAuthority == v.bridgeAuthority
    && v'.isActive == v.isActive && v.leafIndex <= v'.leafIndex
  }

  /** The pause flag is its authority's, and the attested balance the validators'. */
  predicate ChangedByRight(b: BridgeState, t: Transaction, b': BridgeState) {
    && (b'.paused != b.paused ==> t.PauseTx? && t.authority == b.authority && t.authority.Key? && t.paused == b'.paused)
    && (b'.vaultBalance != b.vaultBalance ==>
          t.AttestTx? && t.balance == b'.vaultBalance && ThresholdMet(b, t.signers))
  }

  ghost predicate ShapeKept(s: State, t: Transaction, s': State) {
    && (s.bridge.Some? ==>
          && s'.bridge.Some? && SameBridge(s.bridge.value, s'.bridge.value)
          && ChangedByRight(s.bridge.value, t, s'.bridge.value))
    && (s.bridge.None? && s'.bridge.Some? ==>
          && t.InitializeTx? && BridgeShape(s'.bridge.value) && !s'.bridge.value.paused
          && SameBridge(BridgeState(t.authority, t.mint, t.threshold, t.validators, 0, 0, 0, t.dailyLimit, 0, 0, false,
                                    0), s'.bridge.value))
    && (forall root :: root in s.vaults ==> root in s'.vaults && SameVault(s.vaults[root], s'.vaults[root]))
    && (forall root :: root in s'.vaults && root !in s.vaults ==>
          && t.OpenTx? && t.root == root && t.owner == s'.vaults[root].owner && t.owner.Key?
          && s'.vaults[root].treeDepth == t.depth && 1 <= t.depth <= 20 && s'.vaults[root].leafIndex == 0
          && s'.vaults[root].tokenMint == t.mint && s'.vaults[root].bridgeAuthority == t.bridgeAuthority
          && s'.vaults[root].isActive)
  }

  lemma BurnShapes(s: State, user: Address, from: Address, amount: u64, epoch: u64)
    requires Burn(s, user, from, amount, epoch).Done?
    ensures var s' := Burn(s, user, from, amount, epoch).state;
            && s.bridge.Some? && s'.bridge.Some? && SameBridge(s.bridge.value, s'.bridge.value)
            && s'.bridge.value.paused == s.bridge.value.paused
            && s'.bridge.value.vaultBalance == s.bridge.value.vaultBalance && s'.vaults == s.vaults
  {
    hide BurnTokens;
  }

  lemma MintShapes(s: State, dest: Address, amount: u64, soqTxid: Digest, signers: seq<Address>)
    requires Mint(s, dest, amount, soqTxid, signers).Done?
    ensures var s' := Mint(s, dest, amount, soqTxid, signers).state;
            && s.bridge.Some? && s'.bridge.Some? && SameBridge(s.bridge.value, s'.bridge.value)
            && s'.bridge.value.paused == s.bridge.value.paused
            && s'.bridge.value.vaultBalance == s.bridge.value.vaultBalance && s'.vaults == s.vaults
  {
    hide MintTokens, ListedSigners;
  }

  lemma AttestShapes(s: State, balance: u64, signers: seq<Address>)
    requires Attest(s, balance, signers).Done?
    ensures s.bridge.Some? && ThresholdMet(s.bridge.value, signers)
    ensures Attest(s, balance, signers).state == s.(bridge := Some(s.bridge.value.(vaultBalance := balance)))
  {
    hide ListedSigners;
    ListedIsCount(s.bridge.value.validators, signers);
  }

  lemma VaultShapes(env: Env, s: State, t: Transaction, epoch: u64)
    requires WellFormed(env) && (t.WithdrawTx? || t.BridgeOutTx? || t.OpenTx? || t.DepositTx?)
    requires Apply(env, s, t, epoch).Done?
    ensures ShapeKept(s, t, Apply(env, s, t, epoch).state)
  {
    hide WellFormed, KeyError, Transfer, Burn, IsExhausted, ThresholdMet;
    if t.BridgeOutTx? {
      BurnShapes(s, VaultPda(t.root), s.vaults[t.root].tokenAccount, t.amount, epoch);
    }
  }

  lemma StepShapes(env: Env, s: State, t: Transaction, epoch: u64)
    requires WellFormed(env)
    ensures ShapeKept(s, t, Step(env, s, t, epoch))
  {
    hide WellFormed, Burn, Mint, Attest, Open, Withdraw, Deposit, BridgeOut, Transfer, ThresholdMet;
    if Apply(env, s, t, epoch).Done? {
      match t
      case BurnTx(user, from, amount) => BurnShapes(s, user, from, amount, epoch);
      case MintTx(dest, amount, soqTxid, signers) => MintShapes(s, dest, amount, soqTxid, signers);
      case AttestTx(balance, signers) => AttestShapes(s, balance, signers);
      case OpenTx(_, _, _, _, _) => VaultShapes(env, s, t, epoch);
      case WithdrawTx(_, _, _, _, _, _, _, _) => VaultShapes(env, s, t, epoch);
      case DepositTx(_, _, _, _) => VaultShapes(env, s, t, epoch);
      case BridgeOutTx(_, _, _, _, _, _, _) => VaultShapes(env, s, t, epoch);
      case _ =>
    }
  }

  /** Over every run: a bridge keeps its authority, mint, validators, threshold and limit, with
      2 <= threshold <= validators <= 10. */
  lemma {:induction false} BridgeKeepsShape(env: Env, ss: seq<State>, ts: seq<Transaction>, epochs: seq<u64>, i: nat,
                                            k: nat)
    requires WellFormed(env) && IsRun(env, ss, ts, epochs) && i <= k < |ss| && ss[i].bridge.Some?
    ensures ss[k].bridge.Some? && SameBridge(ss[i].bridge.value, ss[k].bridge.value) && BridgeShape(ss[k].bridge.value)
    decreases k
  {
    hide WellFormed, Step;
    assert k > 0;
    StepShapes(env, ss[k - 1], ts[k - 1], epochs[k - 1]);
    if i < k {
      BridgeKeepsShape(env, ss, ts, epochs, i, k - 1);
    } else if ss[k - 1].bridge.Some? {
      BridgeKeepsShape(env, ss, ts, epochs, k - 1, k - 1);
    }
  }

  /** And a vault keeps its root, depth, owner, mint and account, and its counter does not go
      back. */
  lemma {:induction false} VaultsKeepShape(env: Env, ss: seq<State>, ts: seq<Transaction>, epochs: seq<u64>, i: nat,
                                           k: nat, root: Digest)
    requires WellFormed(env) && IsRun(env, ss, ts, epochs) && i <= k < |ss| && root in ss[i].vaults
    ensures root in ss[k].vaults && SameVault(ss[i].vaults[root], ss[k].vaults[root])
    decreases k
  {
    hide WellFormed, Step;
    if i < k {
      VaultsKeepShape(env, ss, ts, epochs, i, k - 1, root);
      StepShapes(env, ss[k - 1], ts[k - 1], epochs[k - 1]);
    }
  }

  /** In particular nothing is minted without a threshold of validators' entries. */
  lemma MintsNeedTheThreshold(env: Env, ss: seq<State>, ts: seq<Transaction>, epochs: seq<u64>, i: nat, a: nat)
    returns (at: nat)
    requires WellFormed(env) && IsRun(env, ss, ts, epochs) && i < |ss| && a < |ss[i].events| && ss[i].events[a].Minted?
    ensures at < i <= |ts| && |ss| == |ts| + 1 && ts[at].MintTx? && ss[at].bridge.Some?
    ensures var b, t := ss[at].bridge.value, ts[at];
            && !b.paused && b.threshold >= 2 && t.amount == ss[i].events[a].amount >= 1_000_000_000
            && |set p: nat | p < |t.signers| && t.signers[p] in b.validators| >= b.threshold
  {
    hide IsRun, WellFormed, Step;
    at := EventsAreAuthorised(env, ss, ts, epochs, i, a);
    BridgeKeepsShape(env, ss, ts, epochs, at, at);
    assert (set p: nat | p < |ts[at].signers| && ts[at].signers[p] in ss[at].bridge.value.validators)
        == ValidEntries(ss[at].bridge.value.validators, ts[at].signers);
  }

  // ---- when a transaction succeeds ----

  /** What it set out to do is done. */
  predicate Took(t: Transaction, s': State) {
    match t
    case InitializeTx(authority, _, _, _, _) => s'.bridge.Some? && s'.bridge.value.authority == authority
    case PauseTx(_, paused) => s'.bridge.Some? && s'.bridge.value.paused == paused
    case AttestTx(balance, _) => s'.bridge.Some? && s'.bridge.value.vaultBalance == balance
    case MintTx(_, _, soqTxid, _) => soqTxid in s'.processed
    case OpenTx(root, _, _, _, mint) =>
      root in s'.vaults && s'.vaults[root].merkleRoot == root && s'.vaults[root].tokenAccount in s'.tokens
      && s'.tokens[s'.vaults[root].tokenAccount] == TokenAccount(mint, VaultPda(root), 0)
    case NewTokenAccountTx(id, mint, owner) =>
      Key(id) in s'.tokens && s'.tokens[Key(id)] == TokenAccount(mint, owner, 0)
    case _ => true
  }

  lemma SuccessTakes(env: Env, s: State, t: Transaction, epoch: u64)
    requires WellFormed(env) && Apply(env, s, t, epoch).Done?
    ensures Took(t, Step(env, s, t, epoch))
  {
    hide WellFormed, Burn, Withdraw, Deposit, BridgeOut, Transfer, ListedSigners, MintTokens;
  }

  /** Both ends exist and hold one mint, the payer has the amount, and the payee can hold it. */
  predicate Feasible(tokens: Tokens, m: Move) {
    && (m.from.Some? ==> m.from.value in tokens && tokens[m.from.value].amount >= m.amount)
    && (m.dest.Some? ==>
          && m.dest.value in tokens
          && (m.from == m.dest || tokens[m.dest.value].amount + m.amount <= 0xffff_ffff_ffff_ffff))
    && (m.from.Some? && m.dest.Some? ==> tokens[m.from.value].mint == tokens[m.dest.value].mint)
  }

  /** A burn out of the account by its owner: the bridge is open for it, the amount is enough, within
      what is left of the day's limit, and there; and no counter is at its end. */
  predicate BurnFits(s: State, user: Address, from: Address, amount: u64, epoch: u64) {
    && s.bridge.Some? && from in s.tokens && s.tokens[from].owner == user
    && var b := s.bridge.value;
       && s.tokens[from].mint == b.mint && b.mint in s.supply && !b.paused && amount >= 1_000_000_000
       && (if epoch == b.lastEpoch then b.dailyVolume else 0) + amount <= b.dailyLimit
       && amount <= s.tokens[from].amount && amount <= s.supply[b.mint]
       && b.totalBurned + amount <= 0xffff_ffff_ffff_ffff && b.nonce < 0xffff_ffff_ffff_ffff
  }

  predicate MintFits(s: State, dest: Address, amount: u64, soqTxid: Digest, signers: seq<Address>) {
    && s.bridge.Some? && soqTxid !in s.processed && dest in s.tokens
    && var b, net := s.bridge.value, amount - amount / 1000;
       && s.tokens[dest].mint == b.mint && b.mint in s.supply && !b.paused && amount >= 1_000_000_000
       && ThresholdMet(b, signers)
       && s.tokens[dest].amount + net <= 0xffff_ffff_ffff_ffff && s.supply[b.mint] + net <= 0xffff_ffff_ffff_ffff
       && b.totalMinted + net <= 0xffff_ffff_ffff_ffff
  }

  /** The vault has a key left for the transaction, and its counters can count it. */
  predicate KeyLeft(v: XmssVault) {
    && v.leafIndex < (if v.treeDepth < 16 then Exp2(v.treeDepth) else 0xffff)
    && v.leafIndex < 0xffff && v.totalOperations < 0xffff_ffff
  }

  /** What the transaction needs. */
  ghost predicate MaySucceed(env: Env, s: State, t: Transaction, epoch: u64)
    requires WellFormed(env)
  {
    match t
    case InitializeTx(authority, mint, threshold, validators, _) =>
      authority.Key? && s.bridge.None? && mint in s.supply && 2 <= threshold <= |validators| <= 10
    case BurnTx(user, from, amount) => user.Key? && BurnFits(s, user, from, amount, epoch)
    case MintTx(dest, amount, soqTxid, signers) => MintFits(s, dest, amount, soqTxid, signers)
    case AttestTx(_, signers) => s.bridge.Some? && ThresholdMet(s.bridge.value, signers)
    case PauseTx(authority, _) => authority.Key? && s.bridge.Some? && s.bridge.value.authority == authority
    case OpenTx(root, depth, _, owner, mint) =>
      owner.Key? && root !in s.vaults && VaultAta(root, mint) !in s.tokens && mint in s.supply && 1 <= depth <= 20
    case WithdrawTx(root, owner, dest, recipient, amount, leafIndex, sig, proof) =>
      && VaultAgrees(env, s, root, owner, amount, recipient, leafIndex, sig, proof) && KeyLeft(s.vaults[root])
      && dest in s.tokens && s.tokens[dest].mint == s.vaults[root].tokenMint
      && Feasible(s.tokens, Told(s, t)) && s.tokens[s.vaults[root].tokenAccount].owner == VaultPda(root)
    case DepositTx(root, depositor, from, amount) =>
      && root in s.vaults && s.vaults[root].isActive && OnItsOwnersWord(env, s, t, from)
      && s.tokens[from].mint == s.vaults[root].tokenMint && Feasible(s.tokens, Told(s, t))
    case BridgeOutTx(root, owner, bridgeState, amount, leafIndex, sig, proof) =>
      && VaultAgrees(env, s, root, owner, amount, BridgePda, leafIndex, sig, proof) && KeyLeft(s.vaults[root])
      && bridgeState == s.vaults[root].bridgeAuthority == BridgePda
      && BurnFits(s, VaultPda(root), s.vaults[root].tokenAccount, amount, epoch)
    case NewTokenAccountTx(id, mint, _) => Key(id) !in s.tokens && mint in s.supply
    case TransferTx(from, _, _, _) => OnItsOwnersWord(env, s, t, from) && Feasible(s.tokens, Told(s, t))
  }

  lemma BurnSucceeds(s: State, user: Address, from: Address, amount: u64, epoch: u64)
    ensures Burn(s, user, from, amount, epoch).Done? <==> BurnFits(s, user, from, amount, epoch)
  {
  }

  lemma MintSucceeds(s: State, dest: Address, amount: u64, soqTxid: Digest, signers: seq<Address>)
    ensures Mint(s, dest, amount, soqTxid, signers).Done? <==> MintFits(s, dest, amount, soqTxid, signers)
  {
    hide ListedSigners;
    if s.bridge.Some? {
      ListedIsCount(s.bridge.value.validators, signers);
    }
  }

  lemma AttestSucceeds(s: State, balance: u64, signers: seq<Address>)
    ensures Attest(s, balance, signers).Done? <==> s.bridge.Some? && ThresholdMet(s.bridge.value, signers)
  {
    hide ListedSigners;
    if s.bridge.Some? {
      ListedIsCount(s.bridge.value.validators, signers);
    }
  }

  lemma TransferSucceeds(tokens: Tokens, from: Address, dest: Address, authority: Address, amount: u64)
    ensures Transfer(tokens, from, dest, authority, amount).Some? <==>
            Feasible(tokens, Move(Some(from), Some(dest), amount)) && tokens[from].owner == authority
  {
  }

  lemma TurnIsLeft(v: XmssVault, leafIndex: u16)
    ensures TurnError(v, leafIndex).None? && Advance(v).Some? <==>
            v.isActive && leafIndex == v.leafIndex && KeyLeft(v)
  {
  }

  lemma KeyIsGood(env: Env, v: XmssVault, amount: u64, payee: Address, leafIndex: u16, sig: Bytes, proof: Bytes)
    requires WellFormed(env)
    ensures KeyPasses(env, v, amount, payee, leafIndex, sig, proof) <==>
            leafIndex == v.leafIndex && KeyError(env, v, amount, payee, leafIndex, sig, proof).None?
  {
    hide WellFormed, Xmss.Authorizes, Message;
  }

  lemma WithdrawSucceeds(env: Env, s: State, t: Transaction, epoch: u64)
    requires WellFormed(env) && t.WithdrawTx?
    ensures Apply(env, s, t, epoch).Done? <==> MaySucceed(env, s, t, epoch)
  {
    hide WellFormed, KeyError, KeyPasses, Transfer, Feasible, TurnError, Advance, KeyLeft;
    if t.root in s.vaults {
      var v := s.vaults[t.root];
      TurnIsLeft(v, t.leafIndex);
      KeyIsGood(env, v, t.amount, t.recipient, t.leafIndex, t.sig, t.proof);
      TransferSucceeds(s.tokens, v.tokenAccount, t.dest, VaultPda(t.root), t.amount);
    }
  }

  lemma BridgeOutSucceeds(env: Env, s: State, t: Transaction, epoch: u64)
    requires WellFormed(env) && t.BridgeOutTx?
    ensures Apply(env, s, t, epoch).Done? <==> MaySucceed(env, s, t, epoch)
  {
    hide WellFormed, KeyError, KeyPasses, Burn, BurnFits, TurnError, Advance, KeyLeft;
    if t.root in s.vaults {
      var v := s.vaults[t.root];
      TurnIsLeft(v, t.leafIndex);
      KeyIsGood(env, v, t.amount, t.bridgeState, t.leafIndex, t.sig, t.proof);
      BurnSucceeds(s, VaultPda(t.root), v.tokenAccount, t.amount, epoch);
    }
  }

  lemma OtherSucceeds(env: Env, s: State, t: Transaction, epoch: u64)
    requires WellFormed(env) && !t.WithdrawTx? && !t.BridgeOutTx? && !t.MintTx? && !t.BurnTx? && !t.AttestTx?
    ensures Apply(env, s, t, epoch).Done? <==> MaySucceed(env, s, t, epoch)
  {
    hide WellFormed, Transfer, Feasible;
    if t.DepositTx? && t.root in s.vaults {
      TransferSucceeds(s.tokens, t.from, s.vaults[t.root].tokenAccount, t.depositor, t.amount);
      FeasibleEnds(s.tokens, Told(s, t));
    } else if t.TransferTx? {
      TransferSucceeds(s.tokens, t.from, t.dest, t.owner, t.amount);
      FeasibleEnds(s.tokens, Told(s, t));
    }
  }

  lemma FeasibleEnds(tokens: Tokens, m: Move)
    ensures Feasible(tokens, m) && m.from.Some? ==> m.from.value in tokens
  {
  }

  /** A transaction succeeds exactly if it has what it needs, and then it has done what it says. */
  lemma SucceedsIffAllowed(env: Env, s: State, t: Transaction, epoch: u64)
    requires WellFormed(env)
    ensures Apply(env, s, t, epoch).Done? <==> MaySucceed(env, s, t, epoch)
    ensures Apply(env, s, t, epoch).Done? ==> Took(t, Step(env, s, t, epoch))
  {
    if Apply(env, s, t, epoch).Done? {
      SuccessTakes(env, s, t, epoch);
    }
    hide WellFormed, Burn, BurnFits, Mint, MintFits, Attest, ThresholdMet, Took, Step;
    if t.WithdrawTx? {
      WithdrawSucceeds(env, s, t, epoch);
    } else if t.BridgeOutTx? {
      BridgeOutSucceeds(env, s, t, epoch);
    } else if t.BurnTx? {
      BurnSucceeds(s, t.user, t.from, t.amount, epoch);
    } else if t.MintTx? {
      MintSucceeds(s, t.dest, t.amount, t.soqTxid, t.signers);
    } else if t.AttestTx? {
      AttestSucceeds(s, t.balance, t.signers);
    } else {
      OtherSucceeds(env, s, t, epoch);
    }
  }
}
