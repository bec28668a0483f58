/** Whose word it takes to move the lamports of an account or to change who controls it, whatever
    the step: each change happens in one place, and this is what it asks for. */
module Custody {
  import opened Prelude
  import opened Ledger
  import opened Multisig
  import opened Machine
  import opened Invariants
  import opened Events
  import opened Signatures
  import opened Exact
  import opened Success
  import opened Runs
  import opened H = Handlers
  import opened X = Extensions

  // ------------------------------------------------------------ lamports

  lemma {:induction false} HarvestKeepsLamports(l: Ledger, m: Pubkey, sources: seq<Meta>, k: Pubkey)
    requires HarvestAll(l, m, sources).Ok?
    ensures At(HarvestAll(l, m, sources).value, k).lamports == At(l, k).lamports
    decreases |sources|
  {
    if sources != [] {
      HarvestKeepsLamports(HarvestOne(l, m, sources[0].key).value, m, sources[1..], k);
    }
  }

  lemma {:induction false} CollectKeepsLamports(l: Ledger, m: Pubkey, receiver: Pubkey, sources: seq<Meta>, k: Pubkey)
    requires CollectAll(l, m, receiver, sources).Ok?
    ensures At(CollectAll(l, m, receiver, sources).value, k).lamports == At(l, k).lamports
    decreases |sources|
  {
    if sources != [] {
      CollectKeepsLamports(CollectOne(l, m, receiver, sources[0].key).value, m, receiver, sources[1..], k);
    }
  }

  predicate MovesLamports(ix: Instruction) {
    ix.WithdrawExcess? || ix.CloseAccount? || ix.Transfer?
  }

  lemma CoreKeepsLamports(l: Ledger, ix: Instruction, metas: seq<Meta>, env: Env, k: Pubkey)
    requires IsCore(ix) && !MovesLamports(ix) && Handle(l, ix, metas, env).Ok?
    ensures At(Handle(l, ix, metas, env).value, k).lamports == At(l, k).lamports
  {
    hide ValidateOwner, Spend, SetAccountAuthority, SetMintAuthority;
  }

  lemma OthersKeepLamports(l: Ledger, ix: Instruction, metas: seq<Meta>, env: Env, k: Pubkey)
    requires !IsCore(ix) && !MovesLamports(ix) && Handle(l, ix, metas, env).Ok?
    ensures At(Handle(l, ix, metas, env).value, k).lamports == At(l, k).lamports
  {
    hide ValidateOwner, X.ApplyStaging;
    match ix {
      case HarvestWithheldToMint => HarvestKeepsLamports(l, metas[0].key, metas[1..], k);
      case WithdrawWithheldFromAccounts(n) =>
        var rest := metas[3..];
        CollectKeepsLamports(l, metas[0].key, metas[1].key, rest[if |rest| >= n then |rest| - n else 0..], k);
      case _ =>
    }
  }

  /** What other programs do to an account of this one only adds lamports. */
  lemma OutsideOnlyAdds(l: Ledger, s: Step, k: Pubkey)
    requires !s.Instruct? && Ours(At(l, k))
    ensures At(Next(l, s), k).lamports >= At(l, k).lamports
  {
    assert OutsideAllowed(l, s.after) ==> OutsideCell(At(l, k), At(s.after, k));
  }

  /** Lamports leave `k` the way the step says: excess down to the rent minimum, on the word of the
      owner of an account that is not native, of the authority of a mint, or, for a mint without
      one, of its own key; everything, on the word of whoever may close it; or wrapped SOL with
      the tokens it backs, on the word of the owner or of the delegate within the allowance. */
  ghost predicate LetsLamportsGo(l: Ledger, s: Step, k: Pubkey)
    requires s.Instruct?
  {
    var lost := At(l, k).lamports - At(Next(l, s), k).lamports;
    match s.ix
    case WithdrawExcess =>
      && At(Next(l, s), k).lamports == s.env.rent(At(l, k).data.Length())
      && (IsOpen(l, k) ==> AccountAt(l, k).native.None?)
      && (|| OnTheWordOf(l, s.ix, s.metas, Withdrawer(l, k))
          || (IsLive(l, k) && MintAt(l, k).authority.None? && Authority(s.ix, s.metas) == Meta(k, true)))
    case CloseAccount =>
      && At(Next(l, s), k) == EMPTY
      && (|| (IsOpen(l, k) && AccountAt(l, k).OwnedBySystemOrIncinerator() && MetaAt(s.metas, 1).key == INCINERATOR)
          || (IsOpen(l, k) && OnTheWordOf(l, s.ix, s.metas, AccountAt(l, k).Closer()))
          || (IsLive(l, k) && MintAt(l, k).supply == 0 && MintAt(l, k).ext.Authority(CloseMint).Some?
              && OnTheWordOf(l, s.ix, s.metas, MintAt(l, k).ext.Authority(CloseMint).value)))
    case Transfer(n, _) =>
      && lost == n && IsOpen(l, k) && IsOpen(Next(l, s), k)
      && var a := AccountAt(l, k);
         && a.mint == NATIVE_MINT && AccountAt(Next(l, s), k).amount == a.amount - n
         && (|| OnTheWordOf(l, s.ix, s.metas, a.owner)
             || (a.delegate == Some(Authority(s.ix, s.metas).key) && n <= a.delegatedAmount
                 && OnTheWordOf(l, s.ix, s.metas, Authority(s.ix, s.metas).key)))
    case _ => false
  }

  /** No lamport leaves an account of the program in any other way. */
  lemma EveryLamportReleased(l: Ledger, s: Step, k: Pubkey)
    requires Inv(l) && Ours(At(l, k))
    ensures At(Next(l, s), k).lamports < At(l, k).lamports ==>
              Succeeds(l, s) && MetaAt(s.metas, 0).key == k && LetsLamportsGo(l, s, k)
  {
    if !s.Instruct? {
      OutsideOnlyAdds(l, s, k);
    } else if At(Next(l, s), k).lamports < At(l, k).lamports {
      if Succeeds(l, s) && IsCore(s.ix) && !MovesLamports(s.ix) {
        CoreKeepsLamports(l, s.ix, s.metas, s.env, k);
      } else if Succeeds(l, s) && !MovesLamports(s.ix) {
        OthersKeepLamports(l, s.ix, s.metas, s.env, k);
      }
      assert CellOk(At(l, k));
      if s.ix.WithdrawExcess? {
        ExcessReleased(l, s, k);
      } else if s.ix.CloseAccount? {
        CloseReleased(l, s, k);
      } else {
        TransferReleased(l, s, k);
      }
    }
  }

  lemma ExcessReleased(l: Ledger, s: Step, k: Pubkey)
    requires Succeeds(l, s) && s.ix.WithdrawExcess? && CellOk(At(l, k)) && Ours(At(l, k))
    requires At(Next(l, s), k).lamports < At(l, k).lamports
    ensures MetaAt(s.metas, 0).key == k && LetsLamportsGo(l, s, k)
  {
    WithdrawLeavesRent(l, s.metas, s.env);
    WhoseWord(l, s, Withdrawer(l, k));
    hide Vouched, OnTheWordOf;
  }

  lemma CloseReleased(l: Ledger, s: Step, k: Pubkey)
    requires Succeeds(l, s) && s.ix.CloseAccount? && CellOk(At(l, k)) && Ours(At(l, k))
    requires At(Next(l, s), k).lamports < At(l, k).lamports
    ensures MetaAt(s.metas, 0).key == k && LetsLamportsGo(l, s, k)
  {
    if IsOpen(l, k) {
      WhoseWord(l, s, AccountAt(l, k).Closer());
    } else if IsLive(l, k) && MintAt(l, k).ext.Authority(CloseMint).Some? {
      WhoseWord(l, s, MintAt(l, k).ext.Authority(CloseMint).value);
    }
    hide Vouched, OnTheWordOf;
  }

  lemma TransferTakesLamports(l: Ledger, metas: seq<Meta>, n: u64, kind: TransferKind, env: Env, k: Pubkey)
    requires H.Transfer(l, metas, n, kind, env).Ok?
    ensures var l' := H.Transfer(l, metas, n, kind, env).value;
            At(l', k).lamports < At(l, k).lamports ==>
              && metas[0].key == k && IsOpen(l, k) && IsOpen(l', k) && AccountAt(l, k).native.Some?
              && AccountAt(l', k).amount + n == AccountAt(l, k).amount
              && At(l', k).lamports + n == At(l, k).lamports
  {
    if metas[0].key == metas[DestinationIndex(kind)].key {
      SelfTransferIsFree(l, metas, n, kind, env);
    } else {
      TransferExact(l, metas, n, kind, env);
    }
    hide H.Transfer, TransferTerms;
  }

  lemma TransferReleased(l: Ledger, s: Step, k: Pubkey)
    requires Inv(l) && Succeeds(l, s) && s.ix.Transfer?
    ensures At(Next(l, s), k).lamports < At(l, k).lamports ==> MetaAt(s.metas, 0).key == k && LetsLamportsGo(l, s, k)
  {
    assert CellOk(At(l, k)) && NativeMintCell(At(l, NATIVE_MINT));
    hide H.Transfer, OnTheWordOf, Inv;
    if At(Next(l, s), k).lamports < At(l, k).lamports {
      TransferTakesLamports(l, s.metas, s.ix.amount, s.ix.transferKind, s.env, k);
      EveryDebitAuthorized(l, s, k);
    }
  }

  // ------------------------------------------------------------ the controls of an account

  /** An account changes its owner only by `SetAuthority` on the word of the owner, to the one it
      names; delegate and allowance go, and the close authority of wrapped SOL. */
  lemma EveryOwnerChangeAuthorized(l: Ledger, s: Step, k: Pubkey)
    requires IsOpen(l, k) && IsOpen(Next(l, s), k)
    ensures var a, a' := AccountAt(l, k), AccountAt(Next(l, s), k);
            a'.owner != a.owner ==>
              && Succeeds(l, s) && MetaAt(s.metas, 0).key == k
              && s.ix == Instruction.SetAuthority(AccountOwner, Some(a'.owner))
              && OnTheWordOf(l, s.ix, s.metas, a.owner)
              && !a.frozen && !a.ext.immutableOwner && !a.Guarded()
              && a'.delegate.None? && a'.delegatedAmount == 0
              && a'.closeAuthority == if a.native.Some? then None else a.closeAuthority
  {
    NextEvents(l, s, k);
    if AccountAt(Next(l, s), k).owner != AccountAt(l, k).owner {
      WhoseWord(l, s, AccountAt(l, k).owner);
      NamesItsKind(l, s, k);
    }
  }

  lemma NamesItsKind(l: Ledger, s: Step, k: Pubkey)
    requires Succeeds(l, s) && s.ix.SetAuthority? && MetaAt(s.metas, 0).key == k && IsOpen(l, k)
    ensures if s.ix.kind == AccountOwner then s.ix.next.Some? else s.ix.kind == AuthorityType.CloseAccount
  {
  }

  /** Its close authority changes only on the word of whoever may close it, or with the owner. */
  lemma EveryCloserChangeAuthorized(l: Ledger, s: Step, k: Pubkey)
    requires IsOpen(l, k) && IsOpen(Next(l, s), k)
    ensures var a, a' := AccountAt(l, k), AccountAt(Next(l, s), k);
            a'.closeAuthority != a.closeAuthority ==>
              && Succeeds(l, s) && s.ix.SetAuthority? && MetaAt(s.metas, 0).key == k && !a.frozen
              && (|| (&& s.ix.kind == AuthorityType.CloseAccount && s.ix.next == a'.closeAuthority
                      && OnTheWordOf(l, s.ix, s.metas, a.Closer())
                      && (a.Guarded() && s.env.inCpi ==> a'.closeAuthority.None?))
                  || (&& s.ix.kind == AccountOwner && OnTheWordOf(l, s.ix, s.metas, a.owner)
                      && a.native.Some? && a'.closeAuthority.None?))
  {
    NextEvents(l, s, k);
    if AccountAt(Next(l, s), k).closeAuthority != AccountAt(l, k).closeAuthority {
      WhoseWord(l, s, AccountAt(l, k).owner);
      WhoseWord(l, s, AccountAt(l, k).Closer());
      NamesItsKind(l, s, k);
    }
  }

  /** How delegate and allowance may change: the owner appoints; the owner or the delegate revokes;
      a new owner starts without; and what the delegate takes comes off, to the last token. */
  ghost predicate AllowanceMoves(l: Ledger, s: Step, k: Pubkey, a: Account, a': Account)
    requires s.Instruct?
  {
    match s.ix
    case Approve(n, d) =>
      && OnTheWordOf(l, s.ix, s.metas, a.owner)
      && a'.delegatedAmount == n && a'.delegate == Some(MetaAt(s.metas, AuthorityIndex(s.ix) - 1).key)
    case Revoke =>
      && (|| OnTheWordOf(l, s.ix, s.metas, a.owner)
          || (a.delegate.Some? && OnTheWordOf(l, s.ix, s.metas, a.delegate.value)))
      && a'.delegatedAmount == 0 && a'.delegate.None?
    case SetAuthority(_, _) =>
      && OnTheWordOf(l, s.ix, s.metas, a.owner)
      && a'.delegatedAmount == 0 && a'.delegate.None?
    case Transfer(n, _) => TakesFromAllowance(l, s, a, a', n)
    case Burn(n, _) => TakesFromAllowance(l, s, a, a', n)
    case _ => false
  }

  ghost predicate TakesFromAllowance(l: Ledger, s: Step, a: Account, a': Account, n: u64)
    requires s.Instruct?
  {
    && a.delegate == Some(Authority(s.ix, s.metas).key)
    && OnTheWordOf(l, s.ix, s.metas, Authority(s.ix, s.metas).key)
    && a'.amount + n == a.amount && a'.delegatedAmount + n == a.delegatedAmount
    && a'.delegate == if a'.delegatedAmount == 0 then None else a.delegate
  }

  /** Delegate or allowance are not what they were. */
  predicate AllowanceDiffers(a: Account, a': Account) {
    a'.delegate != a.delegate || a'.delegatedAmount != a.delegatedAmount
  }

  lemma AllowanceTaken(l: Ledger, s: Step, k: Pubkey)
    requires Succeeds(l, s) && IsOpen(l, k) && IsOpen(Next(l, s), k) && (s.ix.Transfer? || s.ix.Burn?)
    ensures AllowanceDiffers(AccountAt(l, k), AccountAt(Next(l, s), k)) ==>
              && MetaAt(s.metas, 0).key == k && !AccountAt(l, k).frozen
              && AllowanceMoves(l, s, k, AccountAt(l, k), AccountAt(Next(l, s), k))
  {
    NextEvents(l, s, k);
    WhoseWord(l, s, Authority(s.ix, s.metas).key);
    hide Execute, Authorized, OnTheWordOf, Next, ExtensionsKept, PermanentDelegateFor;
  }

  lemma AllowanceSet(l: Ledger, s: Step, k: Pubkey)
    requires Succeeds(l, s) && IsOpen(l, k) && IsOpen(Next(l, s), k) && !s.ix.Transfer? && !s.ix.Burn?
    ensures AllowanceDiffers(AccountAt(l, k), AccountAt(Next(l, s), k)) ==>
              && MetaAt(s.metas, 0).key == k && !AccountAt(l, k).frozen
              && AllowanceMoves(l, s, k, AccountAt(l, k), AccountAt(Next(l, s), k))
  {
    var a := AccountAt(l, k);
    NextEvents(l, s, k);
    WhoseWord(l, s, a.owner);
    WhoseWord(l, s, a.delegate.UnwrapOr(a.owner));
    hide Execute, Authorized, OnTheWordOf, Next, ExtensionsKept, PermanentDelegateFor;
  }

  lemma EveryAllowanceChangeAuthorized(l: Ledger, s: Step, k: Pubkey)
    requires IsOpen(l, k) && IsOpen(Next(l, s), k)
    ensures AllowanceDiffers(AccountAt(l, k), AccountAt(Next(l, s), k)) ==>
              && Succeeds(l, s) && MetaAt(s.metas, 0).key == k && !AccountAt(l, k).frozen
              && AllowanceMoves(l, s, k, AccountAt(l, k), AccountAt(Next(l, s), k))
  {
    hide Execute, AllowanceMoves;
    if !Succeeds(l, s) {
      NextEvents(l, s, k);
    } else if s.ix.Transfer? || s.ix.Burn? {
      AllowanceTaken(l, s, k);
    } else {
      AllowanceSet(l, s, k);
    }
  }

  /** An account is frozen or thawed only on the word of the freeze authority that its mint names,
      and nothing else of it changes. While it holds anything the mint is live. */
  lemma EveryFreezeAuthorized(l: Ledger, s: Step, k: Pubkey)
    requires Inv(l) && IsOpen(l, k) && IsOpen(Next(l, s), k)
    ensures var a, a' := AccountAt(l, k), AccountAt(Next(l, s), k);
            a'.frozen != a.frozen ==>
              && Succeeds(l, s) && MetaAt(s.metas, 0).key == k
              && s.ix == ToggleFreeze(a'.frozen) && Base(a') == Base(a.(frozen := a'.frozen))
              && UnpackMint(At(l, a.mint).data).Ok?
              && (a.amount > 0 ==> IsLive(l, a.mint))
              && var holder := UnpackMint(At(l, a.mint).data).value.freezeAuthority;
                 holder.Some? && OnTheWordOf(l, s.ix, s.metas, holder.value)
  {
    var m := AccountAt(l, k).mint;
    NextEvents(l, s, k);
    assert CellOk(At(l, k));
    if !IsLive(l, m) && m != NATIVE_MINT {
      NothingWithoutMint(l, m, k);
    }
    hide Execute, Authorized, OnTheWordOf, Next, ExtensionsKept, Inv;
    if AccountAt(Next(l, s), k).frozen != AccountAt(l, k).frozen {
      WhoseWord(l, s, UnpackMint(At(l, m).data).value.freezeAuthority.value);
    }
  }

  // ------------------------------------------------------------ the controls of a mint

  /** `k` is an account of `m` and its balance moves by `change` in the step. */
  ghost predicate MovesBalance(l: Ledger, s: Step, k: Pubkey, m: Pubkey, change: int) {
    && IsOpen(l, k) && AccountAt(l, k).mint == m && IsOpen(Next(l, s), k)
    && AccountAt(Next(l, s), k).amount == AccountAt(l, k).amount + change
  }

  lemma MintToMoves(l: Ledger, s: Step, m: Pubkey)
    requires Inv(l) && Succeeds(l, s) && s.ix.MintTo? && IsLive(l, m) && IsLive(Next(l, s), m)
    requires MintAt(Next(l, s), m).supply != MintAt(l, m).supply
    ensures MetaAt(s.metas, 0).key == m && MintAt(l, m).authority.Some?
    ensures Authorized(l, s.ix, s.metas, MintAt(l, m).authority.value)
    ensures MintAt(Next(l, s), m).supply == MintAt(l, m).supply + s.ix.amount
    ensures MovesBalance(l, s, MetaAt(s.metas, 1).key, m, s.ix.amount)
  {
    MintToSucceedsExactly(l, s.metas, s.ix.amount, s.ix.checkedDecimals);
    hide H.MintTo, Valid, Inv;
  }

  lemma BurnMoves(l: Ledger, s: Step, m: Pubkey)
    requires Inv(l) && Succeeds(l, s) && s.ix.Burn? && IsLive(l, m) && IsLive(Next(l, s), m)
    requires MintAt(Next(l, s), m).supply != MintAt(l, m).supply
    ensures MetaAt(s.metas, 1).key == m
    ensures MintAt(Next(l, s), m).supply + s.ix.amount == MintAt(l, m).supply
    ensures MovesBalance(l, s, MetaAt(s.metas, 0).key, m, 0 - s.ix.amount)
  {
    BurnSucceedsExactly(l, s.metas, s.ix.amount, s.ix.checkedDecimals, s.env);
    hide H.Burn, Valid, MayDebit, Inv;
  }

  /** The supply grows only by minting, on the word of the mint authority, and shrinks only by
      burning; the balance of an account of the mint moves along. */
  lemma EverySupplyChangeAuthorized(l: Ledger, s: Step, m: Pubkey)
    requires Inv(l) && IsLive(l, m) && IsLive(Next(l, s), m)
    ensures MintAt(Next(l, s), m).supply > MintAt(l, m).supply ==>
              && Succeeds(l, s) && s.ix.MintTo? && MetaAt(s.metas, 0).key == m && MintAt(l, m).authority.Some?
              && OnTheWordOf(l, s.ix, s.metas, MintAt(l, m).authority.value)
              && MintAt(Next(l, s), m).supply == MintAt(l, m).supply + s.ix.amount
              && MovesBalance(l, s, MetaAt(s.metas, 1).key, m, s.ix.amount)
    ensures MintAt(Next(l, s), m).supply < MintAt(l, m).supply ==>
              && Succeeds(l, s) && s.ix.Burn? && MetaAt(s.metas, 1).key == m
              && MintAt(Next(l, s), m).supply + s.ix.amount == MintAt(l, m).supply
              && MovesBalance(l, s, MetaAt(s.metas, 0).key, m, 0 - s.ix.amount)
  {
    hide Execute, Next, Authorized, OnTheWordOf, Inv, MovesBalance;
    NextMint(l, s, m);
    if MintAt(Next(l, s), m).supply > MintAt(l, m).supply {
      MintToMoves(l, s, m);
      WhoseWord(l, s, MintAt(l, m).authority.value);
    } else if MintAt(Next(l, s), m).supply < MintAt(l, m).supply {
      BurnMoves(l, s, m);
    }
  }

  lemma TransferKeepsMints(l: Ledger, metas: seq<Meta>, n: u64, kind: TransferKind, env: Env, m: Pubkey)
    requires H.Transfer(l, metas, n, kind, env).Ok? && IsLive(l, m)
    ensures At(H.Transfer(l, metas, n, kind, env).value, m) == At(l, m)
  {
    if metas[0].key == metas[DestinationIndex(kind)].key {
      SelfTransferIsFree(l, metas, n, kind, env);
    } else {
      TransferExact(l, metas, n, kind, env);
    }
    hide H.Transfer, TransferTerms;
  }

  lemma SlotKeepsPause(l: Ledger, mint: Mint, authority: Meta, signers: seq<Meta>, kind: AuthorityType,
                       next: Option<Pubkey>)
    ensures var after := SetMintAuthority(l, mint, authority, signers, kind, next);
            after.Ok? ==> after.value.ext.paused == mint.ext.paused
  {
  }

  lemma SetAuthorityKeepsPause(l: Ledger, metas: seq<Meta>, kind: AuthorityType, next: Option<Pubkey>, env: Env,
                               m: Pubkey)
    requires H.SetAuthority(l, metas, kind, next, env).Ok? && IsLive(l, m)
    requires IsLive(H.SetAuthority(l, metas, kind, next, env).value, m)
    ensures MintAt(H.SetAuthority(l, metas, kind, next, env).value, m).ext.paused == MintAt(l, m).ext.paused
  {
    SlotKeepsPause(l, MintAt(l, m), metas[1], metas[2..], kind, next);
    hide ValidateOwner, SetAccountAuthority, SetMintAuthority;
  }

  lemma SupplyKeepsPause(l: Ledger, ix: Instruction, metas: seq<Meta>, env: Env, m: Pubkey)
    requires ix.MintTo? || ix.Burn?
    requires Handle(l, ix, metas, env).Ok? && IsLive(l, m) && IsLive(Handle(l, ix, metas, env).value, m)
    ensures MintAt(Handle(l, ix, metas, env).value, m).ext.paused == MintAt(l, m).ext.paused
  {
    hide ValidateOwner, Spend;
  }

  lemma CoreKeepsPause(l: Ledger, ix: Instruction, metas: seq<Meta>, env: Env, m: Pubkey)
    requires IsCore(ix) && Handle(l, ix, metas, env).Ok?
    requires IsLive(l, m) && IsLive(Handle(l, ix, metas, env).value, m)
    ensures MintAt(Handle(l, ix, metas, env).value, m).ext.paused == MintAt(l, m).ext.paused
  {
    if ix.Transfer? {
      TransferKeepsMints(l, metas, ix.amount, ix.transferKind, env, m);
    } else if ix.SetAuthority? {
      SetAuthorityKeepsPause(l, metas, ix.kind, ix.next, env, m);
    } else if ix.MintTo? || ix.Burn? {
      SupplyKeepsPause(l, ix, metas, env, m);
    }
    hide ValidateOwner, Spend, H.SetAuthority, H.Transfer, H.MintTo, H.Burn;
  }

  lemma OthersKeepPause(l: Ledger, ix: Instruction, metas: seq<Meta>, env: Env, m: Pubkey)
    requires !IsCore(ix) && !ix.TogglePause? && Execute(l, ix, metas, env).Ok? && IsLive(l, m)
    requires IsLive(Execute(l, ix, metas, env).value, m)
    ensures MintAt(Execute(l, ix, metas, env).value, m).ext.paused == MintAt(l, m).ext.paused
  {
    hide ValidateOwner, X.ApplyStaging, X.HarvestAll, X.CollectAll;
    match ix {
      case HarvestWithheldToMint => HarvestAllCalm(l, metas[0].key, metas[1..], m);
      case WithdrawWithheldFromAccounts(n) =>
        var rest := metas[3..];
        CollectAllGrown(l, metas[0].key, metas[1].key, rest[if |rest| >= n then |rest| - n else 0..], m);
      case _ =>
    }
  }

  /** A mint is paused or resumed only on the word of its pause authority. */
  lemma EveryPauseAuthorized(l: Ledger, s: Step, m: Pubkey)
    requires IsLive(l, m) && IsLive(Next(l, s), m)
    ensures var before, after := MintAt(l, m).ext, MintAt(Next(l, s), m).ext;
            after.paused != before.paused ==>
              && Succeeds(l, s) && MetaAt(s.metas, 0).key == m
              && s.ix.TogglePause? && after.paused == Some(s.ix.pause)
              && before.Authority(Pause).Some? && OnTheWordOf(l, s.ix, s.metas, before.Authority(Pause).value)
  {
    NextMint(l, s, m);
    if Succeeds(l, s) {
      if IsCore(s.ix) {
        CoreKeepsPause(l, s.ix, s.metas, s.env, m);
      } else if !s.ix.TogglePause? {
        OthersKeepPause(l, s.ix, s.metas, s.env, m);
      } else if MintAt(l, m).ext.Authority(Pause).Some? {
        WhoseWord(l, s, MintAt(l, m).ext.Authority(Pause).value);
      }
    }
  }
}
