/** Exactly when the instructions that change who controls an account or a mint, and how it behaves,
    succeed, and exactly what they change. */
module Settings {
  import opened Prelude
  import opened Ledger
  import opened Multisig
  import opened Exact
  import opened Success
  import opened Runs
  import opened H = Handlers
  import opened X = Extensions

  // ------------------------------------------------------------ authorities

  /** The owner hands over a free account; whoever may close it hands that on, but inside a call by
      another program only takes it back where the account is guarded. */
  predicate MayHandOver(l: Ledger, a: Account, authority: Meta, signers: seq<Meta>, kind: AuthorityType,
                        next: Option<Pubkey>, env: Env) {
    && !a.frozen
    && (|| (&& kind == AccountOwner && next.Some? && Valid(l, a.owner, authority, signers)
            && !a.ext.immutableOwner && a.ext.cpiGuard != Some(true))
        || (&& kind == AuthorityType.CloseAccount
            && Valid(l, if a.closeAuthority.Some? then a.closeAuthority.value else a.owner, authority, signers)
            && (a.ext.cpiGuard == Some(true) && env.inCpi ==> next.None?)))
  }

  /** Each authority over a mint is handed on or given up by its holder; one that has been given up
      has none. An extension cannot store the zero key. */
  predicate MayHandOn(l: Ledger, mint: Mint, authority: Meta, signers: seq<Meta>, kind: AuthorityType,
                      next: Option<Pubkey>) {
    && kind != AccountOwner && kind != AuthorityType.CloseAccount
    && HolderOf(mint, kind).Some? && Valid(l, HolderOf(mint, kind).value, authority, signers)
    && (kind == MintTokens || kind == FreezeAccount || next != Some(0))
  }

  function HandedOver(a: Account, kind: AuthorityType, next: Option<Pubkey>): Account {
    if kind == AccountOwner && next.Some? then
      Account(a.mint, next.value, a.amount, None, a.frozen, a.native, 0,
              if a.native.Some? then None else a.closeAuthority, a.ext)
    else
      Account(a.mint, a.owner, a.amount, a.delegate, a.frozen, a.native, a.delegatedAmount, next, a.ext)
  }

  function HandedOn(mint: Mint, kind: AuthorityType, next: Option<Pubkey>): Mint {
    if kind == MintTokens then Mint(next, mint.supply, mint.decimals, mint.freezeAuthority, mint.ext)
    else if kind == FreezeAccount then Mint(mint.authority, mint.supply, mint.decimals, next, mint.ext)
    else mint.(ext := mint.ext.(authorities := mint.ext.authorities + map[kind := next]))
  }

  predicate MaySetAuthority(l: Ledger, metas: seq<Meta>, kind: AuthorityType, next: Option<Pubkey>, env: Env) {
    && |metas| >= 2
    && var d := At(l, metas[0].key).data;
       || (UnpackAccount(d).Ok? && MayHandOver(l, UnpackAccount(d).value, metas[1], metas[2..], kind, next, env))
       || (UnpackMint(d).Ok? && MayHandOn(l, UnpackMint(d).value, metas[1], metas[2..], kind, next))
  }

  lemma AccountArmExactly(l: Ledger, a: Account, authority: Meta, signers: seq<Meta>, kind: AuthorityType,
                          next: Option<Pubkey>, env: Env)
    ensures SetAccountAuthority(l, a, authority, signers, kind, next, env).Ok?
       <==> MayHandOver(l, a, authority, signers, kind, next, env)
    ensures MayHandOver(l, a, authority, signers, kind, next, env) ==>
              SetAccountAuthority(l, a, authority, signers, kind, next, env) == Ok(HandedOver(a, kind, next))
  {
    hide ValidateOwner;
  }

  lemma SlotFilled(slots: map<AuthorityType, Option<Pubkey>>, kind: AuthorityType, next: Option<Pubkey>)
    ensures slots + map[kind := next] == slots[kind := next]
  {
  }

  lemma MintArmExactly(l: Ledger, mint: Mint, authority: Meta, signers: seq<Meta>, kind: AuthorityType,
                       next: Option<Pubkey>)
    ensures SetMintAuthority(l, mint, authority, signers, kind, next).Ok?
       <==> MayHandOn(l, mint, authority, signers, kind, next)
    ensures MayHandOn(l, mint, authority, signers, kind, next) ==>
              SetMintAuthority(l, mint, authority, signers, kind, next) == Ok(HandedOn(mint, kind, next))
  {
    hide ValidateOwner;
    if kind != MintTokens && kind != FreezeAccount {
      SlotFilled(mint.ext.authorities, kind, next);
    }
  }

  /** Setting an authority succeeds exactly under these conditions, giving it up included, and then
      changes this one authority and what goes with it. */
  lemma SetAuthoritySucceedsExactly(l: Ledger, metas: seq<Meta>, kind: AuthorityType, next: Option<Pubkey>, env: Env)
    ensures H.SetAuthority(l, metas, kind, next, env).Ok? <==> MaySetAuthority(l, metas, kind, next, env)
    ensures MaySetAuthority(l, metas, kind, next, env) ==>
              var k := metas[0].key;
              var d := At(l, k).data;
              H.SetAuthority(l, metas, kind, next, env) == Ok(
                if UnpackAccount(d).Ok? then WithAccount(l, k, HandedOver(UnpackAccount(d).value, kind, next))
                else WithMint(l, k, HandedOn(UnpackMint(d).value, kind, next)))
  {
    if |metas| >= 2 {
      var d := At(l, metas[0].key).data;
      if UnpackAccount(d).Ok? {
        AccountArmExactly(l, UnpackAccount(d).value, metas[1], metas[2..], kind, next, env);
      } else if UnpackMint(d).Ok? {
        MintArmExactly(l, UnpackMint(d).value, metas[1], metas[2..], kind, next);
      }
      hide SetAccountAuthority, SetMintAuthority, MayHandOver, MayHandOn, HandedOver, HandedOn;
    }
  }

  // ------------------------------------------------------------ revoking and freezing

  /** Revoking succeeds exactly on the word of the owner or, given by itself, of the delegate, for an
      account that is not frozen; then there is no delegate and no allowance. */
  lemma RevokeSucceedsExactly(l: Ledger, metas: seq<Meta>)
    ensures H.Revoke(l, metas).Ok?
       <==> && |metas| >= 2 && UnpackAccount(At(l, metas[0].key).data).Ok?
            && var a := UnpackAccount(At(l, metas[0].key).data).value;
               && !a.frozen
               && (|| Valid(l, a.owner, metas[1], metas[2..])
                   || (a.delegate.Some? && Valid(l, a.delegate.value, metas[1], metas[2..])))
    ensures H.Revoke(l, metas).Ok? ==>
              var k := metas[0].key;
              var a := UnpackAccount(At(l, k).data).value;
              H.Revoke(l, metas).value == WithAccount(l, k,
                Account(a.mint, a.owner, a.amount, None, a.frozen, a.native, 0, a.closeAuthority, a.ext))
  {
  }

  /** Freezing or thawing succeeds exactly on the word of the freeze authority of the mint listed
      second, for an account of that mint that is in the other state and not native. */
  lemma ToggleFreezeSucceedsExactly(l: Ledger, metas: seq<Meta>, freeze: bool)
    ensures H.ToggleFreeze(l, metas, freeze).Ok?
       <==> && |metas| >= 3
            && UnpackAccount(At(l, metas[0].key).data).Ok? && UnpackMint(At(l, metas[1].key).data).Ok?
            && var a, mint := UnpackAccount(At(l, metas[0].key).data).value, UnpackMint(At(l, metas[1].key).data).value;
               && a.frozen == !freeze && a.native.None? && a.mint == metas[1].key
               && mint.freezeAuthority.Some? && Valid(l, mint.freezeAuthority.value, metas[2], metas[3..])
    ensures H.ToggleFreeze(l, metas, freeze).Ok? ==>
              var k := metas[0].key;
              var a := UnpackAccount(At(l, k).data).value;
              H.ToggleFreeze(l, metas, freeze).value == WithAccount(l, k,
                Account(a.mint, a.owner, a.amount, a.delegate, freeze, a.native, a.delegatedAmount, a.closeAuthority,
                        a.ext))
  {
  }

  // ------------------------------------------------------------ extensions

  /** Pausing and resuming succeed exactly on the word of the pause authority, also when nothing
      changes by it. */
  lemma TogglePauseSucceedsExactly(l: Ledger, metas: seq<Meta>, pause: bool)
    ensures X.TogglePause(l, metas, pause).Ok?
       <==> && |metas| >= 2 && UnpackMint(At(l, metas[0].key).data).Ok?
            && var mint := UnpackMint(At(l, metas[0].key).data).value;
               && mint.ext.paused.Some? && HolderOf(mint, Pause).Some?
               && Valid(l, HolderOf(mint, Pause).value, metas[1], metas[2..])
    ensures X.TogglePause(l, metas, pause).Ok? ==>
              var k := metas[0].key;
              var mint := UnpackMint(At(l, k).data).value;
              X.TogglePause(l, metas, pause).value
                == WithMint(l, k, mint.(ext := mint.ext.(paused := Some(pause))))
  {
  }

  /** The guard is switched exactly on the word of the owner and never inside a call by another
      program; an account that lacks it needs room for it. */
  lemma ToggleCpiGuardSucceedsExactly(l: Ledger, metas: seq<Meta>, enable: bool, env: Env)
    ensures X.ToggleCpiGuard(l, metas, enable, env).Ok?
       <==> && |metas| >= 2 && UnpackAccount(At(l, metas[0].key).data).Ok? && !env.inCpi
            && var a := UnpackAccount(At(l, metas[0].key).data).value;
               (a.ext.cpiGuard.Some? || env.room) && Valid(l, a.owner, metas[1], metas[2..])
    ensures X.ToggleCpiGuard(l, metas, enable, env).Ok? ==>
              var k := metas[0].key;
              var a := UnpackAccount(At(l, k).data).value;
              X.ToggleCpiGuard(l, metas, enable, env).value
                == WithAccount(l, k, a.(ext := a.ext.(cpiGuard := Some(enable))))
  {
  }

  /** A fee is set exactly on the word of the fee authority and up to 100%. The rate of the current
      epoch then holds for it and the one after it, a change that was pending is dropped, and from
      the second epoch on the new rate holds. Collected fees and everything else stay. */
  lemma SetTransferFeeSucceedsExactly(l: Ledger, metas: seq<Meta>, basisPoints: u16, maximumFee: u64, env: Env)
    ensures X.SetTransferFee(l, metas, basisPoints, maximumFee, env).Ok?
       <==> && |metas| >= 2 && UnpackMint(At(l, metas[0].key).data).Ok? && basisPoints <= 10_000
            && var mint := UnpackMint(At(l, metas[0].key).data).value;
               && mint.ext.fee.Some? && HolderOf(mint, TransferFeeConfig).Some?
               && Valid(l, HolderOf(mint, TransferFeeConfig).value, metas[1], metas[2..])
    ensures X.SetTransferFee(l, metas, basisPoints, maximumFee, env).Ok? ==>
              var k, l' := metas[0].key, X.SetTransferFee(l, metas, basisPoints, maximumFee, env).value;
              var mint := UnpackMint(At(l, k).data).value;
              && UnpackMint(At(l', k).data).Ok?
              && var mint' := UnpackMint(At(l', k).data).value;
                 && mint'.ext.fee.Some? && l' == WithMint(l, k, mint')
                 && mint' == mint.(ext := mint.ext.(fee := mint'.ext.fee))
                 && mint'.ext.fee.value.withheld == mint.ext.fee.value.withheld
                 && forall epoch: u64 :: env.epoch <= epoch ==>
                      RateAt(mint'.ext.fee.value, epoch)
                        == if epoch - env.epoch < 2 && epoch < U64_MAX then RateAt(mint.ext.fee.value, env.epoch)
                           else (basisPoints, maximumFee)
  {
  }
}
