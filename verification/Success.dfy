/** Exactly when the instructions that move tokens or lamports succeed in a reachable ledger. The
    invariant takes every arithmetic failure out of the conditions. */
module Success {
  import opened Prelude
  import opened Ledger
  import opened Multisig
  import opened Totals
  import opened Invariants
  import opened Effects
  import opened Overflow
  import opened Exact
  import opened Signatures
  import opened H = Handlers

  /** `validate_owner` passes for this key. */
  predicate Valid(l: Ledger, key: Pubkey, authority: Meta, signers: seq<Meta>) {
    ValidateOwner(l, key, authority, signers).Pass?
  }

  /** Who may debit an account: the permanent delegate; its delegate, within the allowance; and
      anybody else only as its owner. */
  predicate MayDebit(l: Ledger, a: Account, permanentDelegate: Option<Pubkey>, authority: Meta,
                     signers: seq<Meta>, n: u64) {
    if permanentDelegate == Some(authority.key) then Valid(l, authority.key, authority, signers)
    else if a.delegate == Some(authority.key) then
      Valid(l, authority.key, authority, signers) && n <= a.delegatedAmount
    else Valid(l, a.owner, authority, signers)
  }

  /** Whether the allowance pays for the debit. */
  predicate OnAllowance(a: Account, permanentDelegate: Option<Pubkey>, authority: Meta) {
    permanentDelegate != Some(authority.key) && a.delegate == Some(authority.key)
  }

  /** The account after a debit; an allowance used up dismisses the delegate. */
  function Debited(a: Account, n: u64, onAllowance: bool): Account
    requires n <= a.amount && (onAllowance ==> n <= a.delegatedAmount)
  {
    if !onAllowance then a.(amount := a.amount - n)
    else a.(amount := a.amount - n, delegatedAmount := a.delegatedAmount - n,
            delegate := if a.delegatedAmount == n then None else a.delegate)
  }

  /** The owner of a guarded account acts through another program. */
  predicate GuardBlocks(a: Account, authority: Meta, env: Env) {
    a.Guarded() && env.inCpi && authority.key == a.owner
  }

  lemma SpendSucceeds(l: Ledger, a: Account, permanentDelegate: Option<Pubkey>, authority: Meta,
                      signers: seq<Meta>, n: u64, charge: bool)
    ensures Spend(l, a, permanentDelegate, authority, signers, n, charge).Ok?
       <==> MayDebit(l, a, permanentDelegate, authority, signers, n)
  {
  }

  // ------------------------------------------------------------ burning

  predicate MayBurn(l: Ledger, metas: seq<Meta>, n: u64, decimals: Option<u8>, env: Env) {
    && |metas| >= 3 && IsOpen(l, metas[0].key) && IsLive(l, metas[1].key)
    && var a, mint := AccountAt(l, metas[0].key), MintAt(l, metas[1].key);
       && a.mint == metas[1].key && a.native.None? && !a.frozen && n <= a.amount
       && mint.ext.paused != Some(true) && (decimals.Some? ==> decimals.value == mint.decimals)
       && !GuardBlocks(a, metas[2], env)
       && (a.OwnedBySystemOrIncinerator() || MayDebit(l, a, mint.PermanentDelegate(), metas[2], metas[3..], n))
  }

  /** Burning succeeds exactly under these conditions; then it debits this account, lowers the
      supply by the same amount and touches nothing else. */
  lemma BurnSucceedsExactly(l: Ledger, metas: seq<Meta>, n: u64, decimals: Option<u8>, env: Env)
    requires Inv(l)
    ensures H.Burn(l, metas, n, decimals, env).Ok? <==> MayBurn(l, metas, n, decimals, env)
    ensures MayBurn(l, metas, n, decimals, env) ==>
              var k, m := metas[0].key, metas[1].key;
              var a, mint := AccountAt(l, k), MintAt(l, m);
              var onAllowance := !a.OwnedBySystemOrIncinerator() && OnAllowance(a, mint.PermanentDelegate(), metas[2]);
              && n <= mint.supply && (onAllowance ==> n <= a.delegatedAmount)
              && H.Burn(l, metas, n, decimals, env).value
                   == WithMint(WithAccount(l, k, Debited(a, n, onAllowance)), m, mint.(supply := mint.supply - n))
  {
    BurnNeverOverflows(l, metas, n, decimals, env);
    if |metas| >= 3 && IsOpen(l, metas[0].key) && IsLive(l, metas[1].key) {
      var a, pd := AccountAt(l, metas[0].key), MintAt(l, metas[1].key).PermanentDelegate();
      assert CellOk(At(l, metas[0].key)) && CellOk(At(l, metas[1].key));
      SpendSucceeds(l, a, pd, metas[2], metas[3..], n, true);
      if Spend(l, a, pd, metas[2], metas[3..], n, true).Ok? {
        SpendEffect(l, a, pd, metas[2], metas[3..], n);
      }
      hide Spend, MayDebit;
    }
  }

  // ------------------------------------------------------------ minting

  predicate MayMint(l: Ledger, metas: seq<Meta>, n: u64, decimals: Option<u8>) {
    && |metas| >= 3 && IsLive(l, metas[0].key) && IsOpen(l, metas[1].key)
    && var mint, d := MintAt(l, metas[0].key), AccountAt(l, metas[1].key);
       && d.mint == metas[0].key && d.native.None? && !d.frozen
       && mint.ext.paused != Some(true) && !mint.ext.confidentialMintBurn
       && (mint.ext.nonTransferable ==> d.ext.immutableOwner)
       && (decimals.Some? ==> decimals.value == mint.decimals)
       && mint.authority.Some? && Valid(l, mint.authority.value, metas[2], metas[3..])
  }

  /** Minting succeeds exactly under these conditions and while the supply fits in u64; then the
      account and the supply grow alike, and nothing else changes. */
  lemma MintToSucceedsExactly(l: Ledger, metas: seq<Meta>, n: u64, decimals: Option<u8>)
    requires Inv(l)
    ensures H.MintTo(l, metas, n, decimals).Ok?
       <==> MayMint(l, metas, n, decimals) && MintAt(l, metas[0].key).supply + n <= U64_MAX
    ensures H.MintTo(l, metas, n, decimals).Ok? ==>
              var m, k := metas[0].key, metas[1].key;
              var mint, d := MintAt(l, m), AccountAt(l, k);
              && d.amount <= mint.supply
              && H.MintTo(l, metas, n, decimals).value
                   == WithMint(WithAccount(l, k, d.(amount := d.amount + n)), m, mint.(supply := mint.supply + n))
  {
    if |metas| >= 3 && IsLive(l, metas[0].key) && IsOpen(l, metas[1].key)
       && AccountAt(l, metas[1].key).mint == metas[0].key && metas[0].key != NATIVE_MINT
    {
      assert CellOk(At(l, metas[0].key)) && CellOk(At(l, metas[1].key));
      assert Conserved(l, metas[0].key);
      WeighAtMostTotal(l, Tokens(metas[0].key), metas[1].key);
    }
  }

  // ------------------------------------------------------------ closing

  predicate MayCloseAccount(l: Ledger, a: Account, destination: Pubkey, authority: Meta, signers: seq<Meta>, env: Env) {
    && (a.native.Some? || a.amount == 0) && a.Withheld() == 0
    && (if a.OwnedBySystemOrIncinerator() then destination == INCINERATOR
        else !(a.Guarded() && env.inCpi && destination != a.owner) && Valid(l, a.Closer(), authority, signers))
    && (a.ext.confidential.Some? ==> a.ext.confidential.value.closable)
    && a.ext.confidentialFeeClosable != Some(false)
  }

  predicate MayCloseMint(l: Ledger, mint: Mint, authority: Meta, signers: seq<Meta>) {
    && mint.supply == 0 && mint.ext.Authority(CloseMint).Some?
    && Valid(l, mint.ext.Authority(CloseMint).value, authority, signers)
  }

  predicate MayClose(l: Ledger, metas: seq<Meta>, env: Env) {
    && |metas| >= 3 && metas[0].key != metas[1].key
    && match UnpackAccount(At(l, metas[0].key).data)
       case Ok(a) => MayCloseAccount(l, a, metas[1].key, metas[2], metas[3..], env)
       case Err(_) =>
         match UnpackMint(At(l, metas[0].key).data)
         case Ok(mint) => MayCloseMint(l, mint, metas[2], metas[3..])
         case Err(_) => false
  }

  /** Closing succeeds exactly under these conditions, the lamports always fitting. */
  lemma CloseSucceedsExactly(l: Ledger, metas: seq<Meta>, env: Env)
    requires Inv(l)
    ensures H.CloseAccount(l, metas, env).Ok? <==> MayClose(l, metas, env)
    ensures MayClose(l, metas, env) ==>
              var source, destination := metas[0].key, metas[1].key;
              var sum := At(l, destination).lamports + At(l, source).lamports;
              && sum <= U64_MAX
              && H.CloseAccount(l, metas, env).value == WithLamports(l, destination, sum)[source := EMPTY]
  {
    LamportMovesNeverOverflow(l, metas, env);
  }

  // ------------------------------------------------------------ synchronizing and withdrawing

  /** Synchronizing succeeds on every native account and on nothing else. */
  lemma SyncSucceedsExactly(l: Ledger, metas: seq<Meta>)
    requires Inv(l)
    ensures H.SyncNative(l, metas).Ok?
       <==> |metas| >= 1 && IsOpen(l, metas[0].key) && AccountAt(l, metas[0].key).mint == NATIVE_MINT
    ensures H.SyncNative(l, metas).Ok? ==>
              var k := metas[0].key;
              var a := AccountAt(l, k);
              && a.native.Some? && a.amount + a.native.value <= At(l, k).lamports
              && H.SyncNative(l, metas).value == WithAccount(l, k, a.(amount := At(l, k).lamports - a.native.value))
  {
    if |metas| >= 1 {
      assert CellOk(At(l, metas[0].key));
    }
  }

  /** Whose word lets excess lamports go: for an account its owner's, unless it is native; for a
      mint its mint authority's, or its own key's without one; for a multisignature its own. */
  predicate MayWithdraw(l: Ledger, k: Pubkey, authority: Meta, signers: seq<Meta>) {
    match UnpackAccount(At(l, k).data)
    case Ok(a) => a.native.None? && Valid(l, a.owner, authority, signers)
    case Err(_) =>
      match UnpackMint(At(l, k).data)
      case Ok(mint) =>
        if mint.authority.Some? then Valid(l, mint.authority.value, authority, signers)
        else authority == Meta(k, true)
      case Err(_) => At(l, k).data.Length() == MULTISIG_LEN && Valid(l, k, authority, signers)
  }

  /** The key whose word that is. */
  function Withdrawer(l: Ledger, k: Pubkey): Pubkey {
    match UnpackAccount(At(l, k).data)
    case Ok(a) => a.owner
    case Err(_) =>
      match UnpackMint(At(l, k).data)
      case Ok(mint) => mint.authority.UnwrapOr(k)
      case Err(_) => k
  }

  /** Withdrawing succeeds exactly on that word and down to the rent minimum. From a multisignature
      of the program its signers or, while it is unclaimed, anybody may. */
  lemma WithdrawSucceedsExactly(l: Ledger, metas: seq<Meta>, env: Env)
    requires Inv(l)
    ensures H.WithdrawExcess(l, metas, env).Ok?
       <==> && |metas| >= 3 && MayWithdraw(l, metas[0].key, metas[2], metas[3..])
            && env.rent(At(l, metas[0].key).data.Length()) <= At(l, metas[0].key).lamports
    ensures |metas| >= 3 && MayWithdraw(l, metas[0].key, metas[2], metas[3..]) ==>
              var k := metas[0].key;
              && (Vouched(l, Withdrawer(l, k), metas[2], metas[3..]) || metas[2] == Meta(k, true))
              && (IsMultisigCell(At(l, k)) ==>
                    metas[2].key == k && (SignJointly(l, k, metas[3..]) || IsUnclaimed(At(l, k))))
  {
    LamportMovesNeverOverflow(l, metas, env);
    if |metas| >= 3 {
      var k := metas[0].key;
      assert CellOk(At(l, k));
      if MayWithdraw(l, k, metas[2], metas[3..]) {
        WithdrawerVouches(l, k, metas[2], metas[3..]);
      }
      hide Vouched, SignJointly;
    }
  }

  lemma WithdrawerVouches(l: Ledger, k: Pubkey, authority: Meta, signers: seq<Meta>)
    requires MayWithdraw(l, k, authority, signers)
    ensures Vouched(l, Withdrawer(l, k), authority, signers) || authority == Meta(k, true)
    ensures IsMultisigCell(At(l, k)) ==>
              authority.key == k && (SignJointly(l, k, signers) || IsUnclaimed(At(l, k)))
  {
    if ValidateOwner(l, Withdrawer(l, k), authority, signers).Pass? {
      PassIsVouched(l, Withdrawer(l, k), authority, signers);
    }
  }

  // ------------------------------------------------------------ approving

  predicate MayApprove(l: Ledger, metas: seq<Meta>, decimals: Option<u8>, env: Env) {
    var at := if decimals.Some? then 2 else 1;
    && |metas| >= at + 2 && UnpackAccount(At(l, metas[0].key).data).Ok?
    && var a := UnpackAccount(At(l, metas[0].key).data).value;
       && !a.frozen && !(a.Guarded() && env.inCpi) && Valid(l, a.owner, metas[at + 1], metas[at + 2..])
       && (decimals.Some? ==>
             && metas[1].key == a.mint && UnpackMint(At(l, a.mint).data).Ok?
             && UnpackMint(At(l, a.mint).data).value.decimals == decimals.value)
  }

  /** Approving succeeds exactly under these conditions, on the word of the owner; then the listed
      delegate has the allowance and nothing else changes. */
  lemma ApproveSucceedsExactly(l: Ledger, metas: seq<Meta>, n: u64, decimals: Option<u8>, env: Env)
    ensures H.Approve(l, metas, n, decimals, env).Ok? <==> MayApprove(l, metas, decimals, env)
    ensures MayApprove(l, metas, decimals, env) ==>
              var k, at := metas[0].key, if decimals.Some? then 2 else 1;
              var a := UnpackAccount(At(l, k).data).value;
              && Vouched(l, a.owner, metas[at + 1], metas[at + 2..])
              && H.Approve(l, metas, n, decimals, env).value
                   == WithAccount(l, k, a.(delegate := Some(metas[at].key), delegatedAmount := n))
  {
    if MayApprove(l, metas, decimals, env) {
      var at := if decimals.Some? then 2 else 1;
      PassIsVouched(l, UnpackAccount(At(l, metas[0].key).data).value.owner, metas[at + 1], metas[at + 2..]);
    }
  }

  // ------------------------------------------------------------ new multisignatures

  /** The accounts whose keys a new multisignature is to store. */
  function Founders(metas: seq<Meta>, rentAccount: bool): seq<Meta> {
    if |metas| >= if rentAccount then 2 else 1 then metas[if rentAccount then 2 else 1..] else []
  }

  function KeysOf(metas: seq<Meta>): (keys: seq<Pubkey>)
    ensures |keys| == |metas|
  {
    seq(|metas|, i requires 0 <= i < |metas| => metas[i].key)
  }

  /** A multisignature is initialized exactly on a zero-filled, rent-exempt account of its size, for
      one to eleven keys (though their number is truncated to a byte first), requiring a number
      in the same bounds; it need not be at most that of the keys. */
  lemma MultisigSucceedsExactly(l: Ledger, metas: seq<Meta>, m: u8, rentAccount: bool, env: Env)
    ensures H.InitializeMultisig(l, metas, m, rentAccount, env).Ok?
       <==> && 1 <= |Founders(metas, rentAccount)| <= MAX_SIGNERS && 1 <= m <= MAX_SIGNERS
            && At(l, metas[0].key).data == Blank(MULTISIG_LEN)
            && At(l, metas[0].key).lamports >= env.rent(MULTISIG_LEN)
    ensures H.InitializeMultisig(l, metas, m, rentAccount, env).Ok? ==>
              var founders, k := Founders(metas, rentAccount), metas[0].key;
              && H.InitializeMultisig(l, metas, m, rentAccount, env).value
                == WithData(l, k, MultisigData(m, |founders|, StoredSigners(founders)))
              && forall i :: 0 <= i < 11 ==>
                   StoredSigners(founders)[i] == if i < |founders| then founders[i].key else 0
  {
  }

  /** From then on its word is the word of `m` of the listed keys. */
  lemma NewMultisigSpeaks(l: Ledger, metas: seq<Meta>, m: u8, rentAccount: bool, env: Env,
                          authority: Meta, signers: seq<Meta>)
    requires H.InitializeMultisig(l, metas, m, rentAccount, env).Ok? && Ours(At(l, metas[0].key))
    ensures var k, l' := metas[0].key, H.InitializeMultisig(l, metas, m, rentAccount, env).value;
            Valid(l', k, authority, signers)
              == (authority.key == k && Accepts(KeysOf(Founders(metas, rentAccount)), m, signers))
  {
    var founders := Founders(metas, rentAccount);
    MultisigSucceedsExactly(l, metas, m, rentAccount, env);
    assert StoredSigners(founders)[..|founders|] == KeysOf(founders);
  }

  /** So it can ever speak exactly when it requires no more keys than it was given. */
  lemma NewMultisigCanSpeak(l: Ledger, metas: seq<Meta>, m: u8, rentAccount: bool, env: Env)
    requires H.InitializeMultisig(l, metas, m, rentAccount, env).Ok? && Ours(At(l, metas[0].key))
    ensures var k, l' := metas[0].key, H.InitializeMultisig(l, metas, m, rentAccount, env).value;
            (exists signers: seq<Meta> :: Valid(l', k, Meta(k, false), signers))
              <==> m <= |Founders(metas, rentAccount)|
  {
    var k, l' := metas[0].key, H.InitializeMultisig(l, metas, m, rentAccount, env).value;
    var keys := KeysOf(Founders(metas, rentAccount));
    Satisfiable(keys, m);
    if signers: seq<Meta> :| Valid(l', k, Meta(k, false), signers) {
      NewMultisigSpeaks(l, metas, m, rentAccount, env, Meta(k, false), signers);
    }
    if signers: seq<Meta> :| Accepts(keys, m, signers) {
      NewMultisigSpeaks(l, metas, m, rentAccount, env, Meta(k, false), signers);
    }
  }

  /** And one that never can is initialized without complaint: two required, one given. */
  lemma MuteMultisig(env: Env) returns (l: Ledger, metas: seq<Meta>)
    ensures metas == [Meta(1, false), Meta(2, false)]
    ensures H.InitializeMultisig(l, metas, 2, false, env).Ok?
    ensures forall signers: seq<Meta> ::
              !Valid(H.InitializeMultisig(l, metas, 2, false, env).value, 1, Meta(1, false), signers)
  {
    l := map[1 := Cell(env.rent(MULTISIG_LEN), TOKEN_PROGRAM, Blank(MULTISIG_LEN))];
    metas := [Meta(1, false), Meta(2, false)];
    MultisigSucceedsExactly(l, metas, 2, false, env);
    NewMultisigCanSpeak(l, metas, 2, false, env);
  }

  // ------------------------------------------------------------ transferring

  /** What the mint, or its absence from the list, demands of the source account. */
  predicate MintAllows(l: Ledger, a: Account, metas: seq<Meta>, n: u64, kind: TransferKind, env: Env)
    requires !kind.Unchecked? ==> |metas| >= 2
  {
    if kind.Unchecked? then a.ext.hook.None? && a.ext.withheld.None? && !a.ext.pausable
    else
      && a.mint == metas[1].key && UnpackMint(At(l, a.mint).data).Ok?
      && var mint := UnpackMint(At(l, a.mint).data).value;
         && mint.decimals == kind.decimals && mint.ext.paused != Some(true)
         && (kind.CheckedWithFee? ==> FeeOwed(mint, env.epoch, n) == Some(kind.fee))
  }

  function MintOf(l: Ledger, a: Account, kind: TransferKind): Option<Mint> {
    if kind.Unchecked? || UnpackMint(At(l, a.mint).data).Err? then None
    else Some(UnpackMint(At(l, a.mint).data).value)
  }

  /** What the receiver, another account, must be. */
  predicate ReceiverAllows(a: Account, d: Account, mint: Option<Mint>, n: u64, env: Env) {
    && d.mint == a.mint && !d.frozen
    && (d.ext.memo == Some(true) ==> env.memoBefore)
    && (d.ext.confidential.Some? ==> d.ext.confidential.value.allowsPlainCredits)
    && (mint.Some? ==>
          && (FeeOwed(mint.value, env.epoch, n).UnwrapOr(0) > 0 ==> d.ext.withheld.Some?)
          && (mint.value.ext.hook.UnwrapOr(None).Some? ==> a.ext.hook.Some? && d.ext.hook.Some? && env.hookOk))
  }

  /** The source account, the mint and the authority let the amount go. */
  predicate MayLeave(l: Ledger, metas: seq<Meta>, n: u64, kind: TransferKind, env: Env) {
    var at := DestinationIndex(kind);
    && |metas| >= at + 2 && IsOpen(l, metas[0].key) && Ours(At(l, metas[at].key))
    && var a, authority := AccountAt(l, metas[0].key), metas[at + 1];
       var mint := MintOf(l, a, kind);
       && !a.frozen && !a.ext.nonTransferable && n <= a.amount && !GuardBlocks(a, authority, env)
       && MintAllows(l, a, metas, n, kind, env)
       && MayDebit(l, a, if mint.Some? then mint.value.PermanentDelegate() else None, authority, metas[at + 2..], n)
  }

  predicate MayTransfer(l: Ledger, metas: seq<Meta>, n: u64, kind: TransferKind, env: Env) {
    && MayLeave(l, metas, n, kind, env)
    && var at, a := DestinationIndex(kind), AccountAt(l, metas[0].key);
       if metas[0].key == metas[at].key then a.ext.memo == Some(true) ==> env.memoBefore
       else
         && IsOpen(l, metas[at].key)
         && ReceiverAllows(a, AccountAt(l, metas[at].key), MintOf(l, a, kind), n, env)
  }

  /** Everything is in order but this: a fee is due and the receiver cannot withhold one. */
  predicate CannotWithhold(l: Ledger, metas: seq<Meta>, n: u64, kind: TransferKind, env: Env) {
    && MayLeave(l, metas, n, kind, env)
    && var at, a := DestinationIndex(kind), AccountAt(l, metas[0].key);
       var mint := MintOf(l, a, kind);
       && metas[0].key != metas[at].key && IsOpen(l, metas[at].key)
       && CheckDestination(a.mint, AccountAt(l, metas[at].key), env).Pass?
       && mint.Some? && FeeOwed(mint.value, env.epoch, n).UnwrapOr(0) > 0
       && AccountAt(l, metas[at].key).ext.withheld.None?
  }

  lemma QuoteSucceeds(l: Ledger, k: Pubkey, metas: seq<Meta>, n: u64, kind: TransferKind, env: Env)
    requires Inv(l) && IsOpen(l, k) && n <= AccountAt(l, k).amount && (!kind.Unchecked? ==> |metas| >= 2)
    ensures var a := AccountAt(l, k);
            var q := QuoteFor(l, a, metas, n, kind, env);
            && (q.Ok? && (kind.CheckedWithFee? ==> q.value.fee == kind.fee) <==> MintAllows(l, a, metas, n, kind, env))
            && (q.Ok? ==>
                  var mint := MintOf(l, a, kind);
                  && q.value.permanentDelegate == (if mint.Some? then mint.value.PermanentDelegate() else None)
                  && q.value.fee == (if mint.Some? then FeeOwed(mint.value, env.epoch, n).UnwrapOr(0) else 0)
                  && q.value.hook == (if mint.Some? then mint.value.ext.hook.UnwrapOr(None) else None))
  {
    QuoteFits(l, k, metas, n, kind, env);
  }

  lemma DeliverSucceeds(l: Ledger, source: Pubkey, s: Account, destination: Pubkey, n: u64, q: Quote,
                        mint: Option<Mint>, env: Env)
    requires Inv(l) && source != destination && IsOpen(l, source) && Ours(At(l, destination))
    requires var a := AccountAt(l, source);
             s.mint == a.mint && s.native == a.native && s.amount == a.amount && s.ext == a.ext
    requires n <= s.amount && q.fee <= n && (s.mint == NATIVE_MINT ==> q.fee == 0)
    requires q.fee == (if mint.Some? then FeeOwed(mint.value, env.epoch, n).UnwrapOr(0) else 0)
    requires q.hook == (if mint.Some? then mint.value.ext.hook.UnwrapOr(None) else None)
    ensures Deliver(l, source, s, destination, n, q, env).Ok?
       <==> IsOpen(l, destination) && ReceiverAllows(AccountAt(l, source), AccountAt(l, destination), mint, n, env)
  {
    DeliverFits(l, source, s, destination, n, q, env);
    assert CellOk(At(l, source)) && CellOk(At(l, destination));
  }

  /** The transfer handler in three parts: quote, debit, delivery. */
  lemma TransferParts(l: Ledger, metas: seq<Meta>, n: u64, kind: TransferKind, env: Env)
    requires |metas| >= DestinationIndex(kind) + 2 && IsOpen(l, metas[0].key)
    requires UnpackAccount(At(l, metas[0].key).data).Ok?
    ensures var at, a := DestinationIndex(kind), AccountAt(l, metas[0].key);
            var quoted := QuoteFor(l, a, metas, n, kind, env);
            H.Transfer(l, metas, n, kind, env).Ok? == (
              && !a.frozen && n <= a.amount && !a.ext.nonTransferable
              && quoted.Ok? && (kind.CheckedWithFee? ==> quoted.value.fee == kind.fee)
              && !GuardBlocks(a, metas[at + 1], env)
              && var spent := Spend(l, a, quoted.value.permanentDelegate, metas[at + 1], metas[at + 2..], n,
                                    metas[0].key != metas[at].key);
                 && spent.Ok? && Ours(At(l, metas[at].key))
                 && (if metas[0].key == metas[at].key then a.ext.memo == Some(true) ==> env.memoBefore
                     else Deliver(l, metas[0].key, spent.value, metas[at].key, n, quoted.value, env).Ok?))
  {
  }

  lemma TransferNeedsSource(l: Ledger, metas: seq<Meta>, n: u64, kind: TransferKind, env: Env)
    requires H.Transfer(l, metas, n, kind, env).Ok?
    ensures |metas| >= DestinationIndex(kind) + 2 && IsOpen(l, metas[0].key)
  {
  }

  /** A transfer, of any kind, succeeds exactly under these conditions. */
  lemma TransferSucceedsExactly(l: Ledger, metas: seq<Meta>, n: u64, kind: TransferKind, env: Env)
    requires Inv(l)
    ensures H.Transfer(l, metas, n, kind, env).Ok? <==> MayTransfer(l, metas, n, kind, env)
  {
    if H.Transfer(l, metas, n, kind, env).Ok? {
      TransferNeedsSource(l, metas, n, kind, env);
    }
    hide H.Transfer, QuoteFor, Spend, Deliver, MintAllows, MayDebit, ReceiverAllows;
    var at := DestinationIndex(kind);
    if |metas| >= at + 2 && IsOpen(l, metas[0].key) {
      var source, destination := metas[0].key, metas[at].key;
      var a := AccountAt(l, source);
      assert CellOk(At(l, source));
      TransferParts(l, metas, n, kind, env);
      if n <= a.amount {
        QuoteSucceeds(l, source, metas, n, kind, env);
        var quoted := QuoteFor(l, a, metas, n, kind, env);
        if quoted.Ok? {
          SpendSucceeds(l, a, quoted.value.permanentDelegate, metas[at + 1], metas[at + 2..], n, source != destination);
          if source != destination && Ours(At(l, destination)) {
            DeliverAfterSpend(l, metas, n, kind, env, quoted.value);
          }
        }
      }
    }
  }

  lemma DeliverAfterSpend(l: Ledger, metas: seq<Meta>, n: u64, kind: TransferKind, env: Env, q: Quote)
    requires Inv(l) && |metas| >= DestinationIndex(kind) + 2
    requires IsOpen(l, metas[0].key) && n <= AccountAt(l, metas[0].key).amount
    requires Ours(At(l, metas[DestinationIndex(kind)].key)) && metas[0].key != metas[DestinationIndex(kind)].key
    requires QuoteFor(l, AccountAt(l, metas[0].key), metas, n, kind, env) == Ok(q)
    ensures var at, a := DestinationIndex(kind), AccountAt(l, metas[0].key);
            var spent := Spend(l, a, q.permanentDelegate, metas[at + 1], metas[at + 2..], n, true);
            spent.Ok? ==>
              && n <= spent.value.amount
              && Deliver(l, metas[0].key, spent.value, metas[at].key, n, q, env).Ok? == (
                   && IsOpen(l, metas[at].key)
                   && ReceiverAllows(a, AccountAt(l, metas[at].key), MintOf(l, a, kind), n, env))
  {
    var at, a := DestinationIndex(kind), AccountAt(l, metas[0].key);
    var spent := Spend(l, a, q.permanentDelegate, metas[at + 1], metas[at + 2..], n, true);
    if spent.Ok? {
      SpendEffect(l, a, q.permanentDelegate, metas[at + 1], metas[at + 2..], n);
      QuoteFits(l, metas[0].key, metas, n, kind, env);
      QuoteSucceeds(l, metas[0].key, metas, n, kind, env);
      hide H.Transfer, QuoteFor, Deliver, Spend;
      DeliverSucceeds(l, metas[0].key, spent.value, metas[at].key, n, q, MintOf(l, a, kind), env);
    }
  }

  /** The hook program that runs with a transfer. */
  function HookOf(mint: Option<Mint>): Option<Pubkey> {
    if mint.Some? && mint.value.ext.hook.Some? then mint.value.ext.hook.value else None
  }

  /** The transferring flag is off once the hook has run; without one it is as it was. */
  function FlagAfter(flag: Option<bool>, hook: Option<Pubkey>): Option<bool> {
    if hook.Some? then Some(false) else flag
  }

  /** The cell of an open account afterwards: its lamports, its account, and nothing else changed. */
  predicate Holds(c: Cell, lamports: int, len: nat, a: Account) {
    c.lamports == lamports && c.owner == TOKEN_PROGRAM && c.data == AccountData(len, a)
  }

  /** The receiver after a credit of `n` of which `fee` is withheld. */
  predicate Received(d: Account, n: u64, fee: u64, d': Account) {
    && fee <= n && d.amount + n - fee <= U64_MAX && d.Withheld() + fee <= U64_MAX
    && d' == Account(d.mint, d.owner, d.amount + n - fee, d.delegate, d.frozen, d.native, d.delegatedAmount,
                     d.closeAuthority,
                     d.ext.(withheld := if fee == 0 then d.ext.withheld else Some(d.Withheld() + fee)))
  }

  function Flagged(a: Account, hook: Option<Pubkey>): Account {
    a.(ext := a.ext.(hook := FlagAfter(a.ext.hook, hook)))
  }

  lemma CreditGives(d: Account, n: u64, fee: u64)
    requires Credit(d, n, fee).Ok?
    ensures Received(d, n, fee, Credit(d, n, fee).value)
  {
  }

  lemma DeliverGives(l: Ledger, source: Pubkey, s: Account, destination: Pubkey, n: u64, q: Quote, env: Env)
    requires source != destination && IsOpen(l, source) && Ours(At(l, destination))
    requires n <= s.amount && Deliver(l, source, s, destination, n, q, env).Ok?
    ensures IsOpen(l, destination) && Credit(AccountAt(l, destination), n, q.fee).Ok?
    ensures var l' := Deliver(l, source, s, destination, n, q, env).value;
            var moved := if s.native.Some? then n else 0;
            && Holds(At(l', source), At(l, source).lamports - moved, At(l, source).data.len,
                     Flagged(s.(amount := s.amount - n), q.hook))
            && Holds(At(l', destination), At(l, destination).lamports + moved, At(l, destination).data.len,
                     Flagged(Credit(AccountAt(l, destination), n, q.fee).value, q.hook))
            && (forall x: Pubkey :: x != source && x != destination ==> At(l', x) == At(l, x))
  {
    hide Credit, CheckDestination;
  }

  /** A transfer that succeeds is the delivery of what the debit leaves. */
  lemma TransferDelivers(l: Ledger, metas: seq<Meta>, n: u64, kind: TransferKind, env: Env)
    requires H.Transfer(l, metas, n, kind, env).Ok?
    requires metas[0].key != metas[DestinationIndex(kind)].key
    ensures var at := DestinationIndex(kind);
            && |metas| >= at + 2 && IsOpen(l, metas[0].key) && Ours(At(l, metas[at].key))
            && var a := AccountAt(l, metas[0].key);
               && n <= a.amount && QuoteFor(l, a, metas, n, kind, env).Ok?
               && var q := QuoteFor(l, a, metas, n, kind, env).value;
                  var spent := Spend(l, a, q.permanentDelegate, metas[at + 1], metas[at + 2..], n, true);
                  && spent.Ok? && n <= spent.value.amount
                  && H.Transfer(l, metas, n, kind, env)
                       == Deliver(l, metas[0].key, spent.value, metas[at].key, n, q, env)
  {
    hide Deliver, QuoteFor;
  }

  lemma QuoteGives(l: Ledger, a: Account, metas: seq<Meta>, n: u64, kind: TransferKind, env: Env)
    requires !kind.Unchecked? ==> |metas| >= 2
    requires QuoteFor(l, a, metas, n, kind, env).Ok?
    ensures var q, mint := QuoteFor(l, a, metas, n, kind, env).value, MintOf(l, a, kind);
            && q.hook == HookOf(mint)
            && q.permanentDelegate == (if mint.Some? then mint.value.PermanentDelegate() else None)
            && Some(q.fee) == if mint.Some? then FeeOwed(mint.value, env.epoch, n) else Some(0)
  {
  }

  lemma SpendGives(l: Ledger, a: Account, permanentDelegate: Option<Pubkey>, authority: Meta,
                   signers: seq<Meta>, n: u64)
    requires n <= a.amount && Spend(l, a, permanentDelegate, authority, signers, n, true).Ok?
    ensures var s, onAllowance := Spend(l, a, permanentDelegate, authority, signers, n, true).value,
                                  OnAllowance(a, permanentDelegate, authority);
            && (onAllowance ==> n <= a.delegatedAmount)
            && s.amount == a.amount && s.native == a.native && s.(amount := a.amount - n) == Debited(a, n, onAllowance)
  {
  }

  /** A transfer between two accounts gives exactly this ledger: the source debited, its allowance
      charged if it was spent from; the receiver credited less the fee, which it withholds; lamports
      along with wrapped SOL; transferring flags off after a hook; and all else as it was. */
  lemma TransferGives(l: Ledger, metas: seq<Meta>, n: u64, kind: TransferKind, env: Env) returns (d': Account)
    requires H.Transfer(l, metas, n, kind, env).Ok?
    requires metas[0].key != metas[DestinationIndex(kind)].key
    ensures var at := DestinationIndex(kind);
            var j, k, l' := metas[0].key, metas[at].key, H.Transfer(l, metas, n, kind, env).value;
            && |metas| >= at + 2 && IsOpen(l, j) && IsOpen(l, k)
            && var a := AccountAt(l, j);
               var mint, moved := MintOf(l, a, kind), if a.native.Some? then n else 0;
               var onAllowance :=
                 OnAllowance(a, if mint.Some? then mint.value.PermanentDelegate() else None, metas[at + 1]);
               var fee := if mint.Some? then FeeOwed(mint.value, env.epoch, n) else Some(0);
               && n <= a.amount && (onAllowance ==> n <= a.delegatedAmount)
               && fee.Some? && Received(AccountAt(l, k), n, fee.value, d')
               && Holds(At(l', j), At(l, j).lamports - moved, At(l, j).data.len,
                        Flagged(Debited(a, n, onAllowance), HookOf(mint)))
               && Holds(At(l', k), At(l, k).lamports + moved, At(l, k).data.len, Flagged(d', HookOf(mint)))
               && forall x: Pubkey :: x != j && x != k ==> At(l', x) == At(l, x)
  {
    TransferDelivers(l, metas, n, kind, env);
    hide H.Transfer, Deliver, QuoteFor, Spend, Credit, Received, Flagged, Debited, OnAllowance;
    var at, a := DestinationIndex(kind), AccountAt(l, metas[0].key);
    var q := QuoteFor(l, a, metas, n, kind, env).value;
    var s := Spend(l, a, q.permanentDelegate, metas[at + 1], metas[at + 2..], n, true).value;
    QuoteGives(l, a, metas, n, kind, env);
    SpendGives(l, a, q.permanentDelegate, metas[at + 1], metas[at + 2..], n);
    DeliverGives(l, metas[0].key, s, metas[at].key, n, q, env);
    d' := Credit(AccountAt(l, metas[at].key), n, q.fee).value;
    CreditGives(AccountAt(l, metas[at].key), n, q.fee);
  }

  // ------------------------------------------------------------ the branch thought impossible

  lemma DeliverInvalidState(l: Ledger, source: Pubkey, s: Account, destination: Pubkey, n: u64, q: Quote, env: Env)
    requires Inv(l) && source != destination && IsOpen(l, source) && Ours(At(l, destination))
    requires var a := AccountAt(l, source); s.mint == a.mint && s.native == a.native && s.amount == a.amount
    requires n <= s.amount && q.fee <= n && (s.mint == NATIVE_MINT ==> q.fee == 0)
    ensures Deliver(l, source, s, destination, n, q, env) == Err(InvalidState)
       <==> && IsOpen(l, destination) && CheckDestination(s.mint, AccountAt(l, destination), env).Pass?
            && q.fee > 0 && AccountAt(l, destination).ext.withheld.None?
  {
    DeliverFits(l, source, s, destination, n, q, env);
    assert CellOk(At(l, destination));
  }

  /** Quote and debit never answer with that error. */
  lemma InvalidStateParts(l: Ledger, metas: seq<Meta>, n: u64, kind: TransferKind, env: Env)
    requires |metas| >= DestinationIndex(kind) + 2 && IsOpen(l, metas[0].key)
    requires UnpackAccount(At(l, metas[0].key).data).Ok?
    ensures var at, a := DestinationIndex(kind), AccountAt(l, metas[0].key);
            var quoted := QuoteFor(l, a, metas, n, kind, env);
            (H.Transfer(l, metas, n, kind, env) == Err(InvalidState)) == (
              && !a.frozen && n <= a.amount && !a.ext.nonTransferable
              && quoted.Ok? && (kind.CheckedWithFee? ==> quoted.value.fee == kind.fee)
              && !GuardBlocks(a, metas[at + 1], env) && metas[0].key != metas[at].key
              && var spent := Spend(l, a, quoted.value.permanentDelegate, metas[at + 1], metas[at + 2..], n, true);
                 && spent.Ok? && Ours(At(l, metas[at].key))
                 && Deliver(l, metas[0].key, spent.value, metas[at].key, n, quoted.value, env) == Err(InvalidState))
  {
  }

  lemma InvalidStateNeedsSource(l: Ledger, metas: seq<Meta>, n: u64, kind: TransferKind, env: Env)
    requires H.Transfer(l, metas, n, kind, env) == Err(InvalidState)
    ensures |metas| >= DestinationIndex(kind) + 2 && IsOpen(l, metas[0].key)
  {
  }

  /** The error that is "never" to happen happens exactly when a fee is due and the receiver, in
      order otherwise, cannot withhold it. */
  lemma InvalidStateExactly(l: Ledger, metas: seq<Meta>, n: u64, kind: TransferKind, env: Env)
    requires Inv(l)
    ensures H.Transfer(l, metas, n, kind, env) == Err(InvalidState) <==> CannotWithhold(l, metas, n, kind, env)
  {
    if H.Transfer(l, metas, n, kind, env) == Err(InvalidState) {
      InvalidStateNeedsSource(l, metas, n, kind, env);
    }
    hide H.Transfer, QuoteFor, Spend, Deliver, MintAllows, MayDebit, CheckDestination;
    var at := DestinationIndex(kind);
    if |metas| >= at + 2 && IsOpen(l, metas[0].key) {
      var source, destination := metas[0].key, metas[at].key;
      var a := AccountAt(l, source);
      assert CellOk(At(l, source));
      InvalidStateParts(l, metas, n, kind, env);
      if n <= a.amount {
        QuoteSucceeds(l, source, metas, n, kind, env);
        QuoteFits(l, source, metas, n, kind, env);
        var quoted := QuoteFor(l, a, metas, n, kind, env);
        if quoted.Ok? {
          var spent := Spend(l, a, quoted.value.permanentDelegate, metas[at + 1], metas[at + 2..], n, true);
          SpendSucceeds(l, a, quoted.value.permanentDelegate, metas[at + 1], metas[at + 2..], n, true);
          if spent.Ok? && source != destination && Ours(At(l, destination)) {
            SpendEffect(l, a, quoted.value.permanentDelegate, metas[at + 1], metas[at + 2..], n);
            DeliverInvalidState(l, source, spent.value, destination, n, quoted.value, env);
          }
        }
      }
    }
  }

  // ------------------------------------------------------------ minting beyond u64

  /** Minting returns Overflow exactly when everything else is in order and the supply would leave
      u64: the balance check before it never fails first. */
  lemma MintToOverflowsExactly(l: Ledger, metas: seq<Meta>, n: u64, decimals: Option<u8>)
    requires Inv(l)
    ensures H.MintTo(l, metas, n, decimals) == Err(Error.Overflow)
       <==> MayMint(l, metas, n, decimals) && MintAt(l, metas[0].key).supply + n > U64_MAX
  {
    MintToSucceedsExactly(l, metas, n, decimals);
    MintErrors(l, metas, n, decimals);
    if MayMint(l, metas, n, decimals) {
      assert CellOk(At(l, metas[0].key)) && CellOk(At(l, metas[1].key));
    }
  }

  lemma MintErrors(l: Ledger, metas: seq<Meta>, n: u64, decimals: Option<u8>)
    ensures H.MintTo(l, metas, n, decimals) == Err(Error.Overflow) ==> MayMint(l, metas, n, decimals)
    ensures MayMint(l, metas, n, decimals)
            && UnpackAccount(At(l, metas[1].key).data).Ok? && UnpackMint(At(l, metas[0].key).data).Ok? ==>
              H.MintTo(l, metas, n, decimals).Ok? || H.MintTo(l, metas, n, decimals) == Err(Error.Overflow)
  {
  }
}
