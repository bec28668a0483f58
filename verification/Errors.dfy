/** Errors tell the truth: the error of a failed instruction is one of a few, and what it says is
    the case. */
module Errors {
  import opened Prelude
  import opened Ledger
  import opened Multisig
  import opened Signatures
  import opened Exact
  import opened Runs
  import opened Births
  import opened H = Handlers
  import opened X = Extensions

  /** The account listed at position `i`, if there is one, */
  function AccountIn(l: Ledger, metas: seq<Meta>, i: nat): Option<Account> {
    if i < |metas| && UnpackAccount(At(l, metas[i].key).data).Ok?
    then Some(UnpackAccount(At(l, metas[i].key).data).value) else None
  }

  /** and the mint. */
  function MintIn(l: Ledger, metas: seq<Meta>, i: nat): Option<Mint> {
    if i < |metas| && UnpackMint(At(l, metas[i].key).data).Ok?
    then Some(UnpackMint(At(l, metas[i].key).data).value) else None
  }

  /** A key that does not give its word is another key, has not signed, or is a multisignature. */
  lemma ValidateErrors(l: Ledger, expected: Pubkey, authority: Meta, signers: seq<Meta>, e: Error)
    requires ValidateOwner(l, expected, authority, signers) == Fail(e)
    ensures match e
            case OwnerMismatch => expected != authority.key
            case MissingRequiredSignature => !SignsAlone(l, authority.key, authority)
            case Panic => IsMultisigCell(At(l, authority.key))
            case InvalidAccountData => IsMultisigCell(At(l, authority.key))
            case _ => false
  {
  }

  /** A list too short, or bytes that hold no account or mint where one is asked for. */
  predicate Unreadable(metas: seq<Meta>, needed: nat, readable: bool, e: Error) {
    if |metas| < needed then e == NotEnoughAccountKeys
    else !readable && e in {UninitializedAccount, InvalidAccountData}
  }

  lemma QuoteErrors(l: Ledger, a: Account, metas: seq<Meta>, n: u64, kind: TransferKind, env: Env, e: Error)
    requires !kind.Unchecked? ==> |metas| >= 2
    requires QuoteFor(l, a, metas, n, kind, env) == Err(e)
    ensures var mint := MintIn(l, metas, 1);
            match e
            case MintRequiredForTransfer =>
              kind.Unchecked? && (a.ext.hook.Some? || a.ext.withheld.Some? || a.ext.pausable)
            case MintMismatch => !kind.Unchecked? && a.mint != metas[1].key
            case MintDecimalsMismatch => !kind.Unchecked? && mint.Some? && kind.decimals != mint.value.decimals
            case MintPaused => !kind.Unchecked? && mint.Some? && mint.value.ext.paused == Some(true)
            case _ => e in {UninitializedAccount, InvalidAccountData, Error.Overflow}
  {
  }

  lemma SpendErrors(l: Ledger, a: Account, permanentDelegate: Option<Pubkey>, authority: Meta, signers: seq<Meta>,
                    n: u64, charge: bool, e: Error)
    requires Spend(l, a, permanentDelegate, authority, signers, n, charge) == Err(e)
    ensures match e
            case InsufficientFunds => a.delegate == Some(authority.key) && n > a.delegatedAmount
            case OwnerMismatch => a.owner != authority.key
            case MissingRequiredSignature => !SignsAlone(l, authority.key, authority)
            case Panic => IsMultisigCell(At(l, authority.key))
            case InvalidAccountData => IsMultisigCell(At(l, authority.key))
            case _ => false
  {
  }

  lemma DeliverErrors(l: Ledger, source: Pubkey, s: Account, destination: Pubkey, n: u64, q: Quote, env: Env, e: Error)
    requires n <= s.amount && Deliver(l, source, s, destination, n, q, env) == Err(e)
    ensures match UnpackAccount(At(l, destination).data)
            case Err(_) => e in {UninitializedAccount, InvalidAccountData}
            case Ok(d) =>
              match e
              case AccountFrozen => d.frozen
              case MintMismatch => d.mint != s.mint
              case NoMemo => d.ext.memo == Some(true) && !env.memoBefore
              case NonConfidentialTransfersDisabled =>
                d.ext.confidential.Some? && !d.ext.confidential.value.allowsPlainCredits
              case InvalidState => q.fee > 0 && d.ext.withheld.None?
              case HookFailed => q.hook.Some? && !env.hookOk
              case ExtensionNotFound => q.hook.Some? && (s.ext.hook.None? || d.ext.hook.None?)
              case _ => e == Error.Overflow
  {
  }

  /** A transfer fails in its own checks or in one of its three parts, and says why. */
  lemma TransferErrors(l: Ledger, metas: seq<Meta>, n: u64, kind: TransferKind, env: Env, e: Error)
    requires H.Transfer(l, metas, n, kind, env) == Err(e)
    ensures Unreadable(metas, DestinationIndex(kind) + 2, AccountIn(l, metas, 0).Some?, e)
         || (|metas| >= DestinationIndex(kind) + 2 && AccountIn(l, metas, 0).Some?)
    ensures |metas| >= DestinationIndex(kind) + 2 && AccountIn(l, metas, 0).Some? ==>
            var at, a := DestinationIndex(kind), AccountIn(l, metas, 0).value;
            || (e == AccountFrozen && a.frozen)
            || (e == InsufficientFunds && n > a.amount)
            || (e == Error.NonTransferable && a.ext.nonTransferable)
            || (n <= a.amount
                && var quoted := QuoteFor(l, a, metas, n, kind, env);
                   || quoted == Err(e)
                   || (quoted.Ok?
                       && var q := quoted.value;
                          || (e == FeeMismatch && kind.CheckedWithFee? && q.fee != kind.fee)
                          || (e == CpiGuardTransferBlocked && a.Guarded() && env.inCpi)
                          || (e == IncorrectProgramId && (!Ours(At(l, metas[0].key)) || !Ours(At(l, metas[at].key))))
                          || (metas[0].key == metas[at].key && e == NoMemo && a.ext.memo == Some(true) && !env.memoBefore)
                          || var spent := Spend(l, a, q.permanentDelegate, metas[at + 1], metas[at + 2..], n,
                                                metas[0].key != metas[at].key);
                             || spent == Err(e)
                             || (spent.Ok? && n <= spent.value.amount
                                 && spent.value.ext == a.ext && spent.value.mint == a.mint
                                 && Deliver(l, metas[0].key, spent.value, metas[at].key, n, q, env) == Err(e))))
  {
    hide QuoteFor, Deliver, FeeOwed, ValidateOwner;
  }

  /** A burn fails in its own checks or in the debit, and says why. */
  lemma BurnErrors(l: Ledger, metas: seq<Meta>, n: u64, decimals: Option<u8>, env: Env, e: Error)
    requires H.Burn(l, metas, n, decimals, env) == Err(e)
    ensures Unreadable(metas, 3, AccountIn(l, metas, 0).Some? && MintIn(l, metas, 1).Some?, e)
         || (|metas| >= 3 && AccountIn(l, metas, 0).Some? && MintIn(l, metas, 1).Some?)
    ensures |metas| >= 3 && AccountIn(l, metas, 0).Some? && MintIn(l, metas, 1).Some? ==>
            var a, mint := AccountIn(l, metas, 0).value, MintIn(l, metas, 1).value;
            || Spend(l, a, mint.PermanentDelegate(), metas[2], metas[3..], n, true) == Err(e)
            || (e == AccountFrozen && a.frozen)
            || (e == NativeNotSupported && a.native.Some?)
            || (e == InsufficientFunds && n > a.amount)
            || (e == MintMismatch && a.mint != metas[1].key)
            || (e == MintDecimalsMismatch && decimals.Some? && decimals.value != mint.decimals)
            || (e == MintPaused && mint.ext.paused == Some(true))
            || (e == CpiGuardBurnBlocked && a.ext.cpiGuard == Some(true) && env.inCpi)
            || (e == IncorrectProgramId && (!Ours(At(l, metas[0].key)) || !Ours(At(l, metas[1].key))))
            || e == Error.Overflow
  {
    hide Spend;
  }

  /** Minting fails in its own checks or for want of the authority's word, and says why. */
  lemma MintToErrors(l: Ledger, metas: seq<Meta>, n: u64, decimals: Option<u8>, e: Error)
    requires H.MintTo(l, metas, n, decimals) == Err(e)
    ensures |metas| < 3 || AccountIn(l, metas, 1).None? ==> Unreadable(metas, 3, AccountIn(l, metas, 1).Some?, e)
    ensures |metas| >= 3 && MintIn(l, metas, 0).Some? && AccountIn(l, metas, 1).Some? ==>
            var mint, d := MintIn(l, metas, 0).value, AccountIn(l, metas, 1).value;
            || (e == AccountFrozen && d.frozen)
            || (e == NativeNotSupported && d.native.Some?)
            || (e == MintMismatch && d.mint != metas[0].key)
            || (e == NonTransferableNeedsImmutableOwnership && mint.ext.nonTransferable && !d.ext.immutableOwner)
            || (e == MintPaused && mint.ext.paused == Some(true))
            || (e == IllegalMintBurnConversion && mint.ext.confidentialMintBurn)
            || (e == MintDecimalsMismatch && decimals.Some? && decimals.value != mint.decimals)
            || (e == FixedSupply && mint.authority.None?)
            || (mint.authority.Some? && ValidateOwner(l, mint.authority.value, metas[2], metas[3..]) == Fail(e))
            || (e == IncorrectProgramId && (!Ours(At(l, metas[0].key)) || !Ours(At(l, metas[1].key))))
            || e == Error.Overflow
  {
    hide ValidateOwner;
  }

  /** Whose word closing asks for. */
  function CloserIn(l: Ledger, metas: seq<Meta>): Option<Pubkey> {
    var a, mint := AccountIn(l, metas, 0), MintIn(l, metas, 0);
    if a.Some? then Some(a.value.Closer()) else if mint.Some? then mint.value.ext.Authority(CloseMint) else None
  }

  /** So does closing. */
  lemma CloseErrors(l: Ledger, metas: seq<Meta>, env: Env, e: Error)
    requires H.CloseAccount(l, metas, env) == Err(e)
    ensures |metas| < 3 ==> e == NotEnoughAccountKeys
    ensures |metas| >= 3 ==>
            var a, mint, key := AccountIn(l, metas, 0), MintIn(l, metas, 0), CloserIn(l, metas);
            || (e == InvalidAccountData && metas[0].key == metas[1].key)
            || e == Error.Overflow
            || (key.Some? && ValidateOwner(l, key.value, metas[2], metas[3..]) == Fail(e))
            || (a.Some?
                && (|| (e == NonNativeHasBalance && a.value.native.None? && a.value.amount > 0)
                    || (e == InvalidAccountData && a.value.OwnedBySystemOrIncinerator() && metas[1].key != INCINERATOR)
                    || (e == CpiGuardCloseAccountBlocked
                        && a.value.ext.cpiGuard == Some(true) && env.inCpi && metas[1].key != a.value.owner)
                    || (e == ConfidentialTransferAccountHasBalance
                        && a.value.ext.confidential.Some? && !a.value.ext.confidential.value.closable)
                    || (e == ConfidentialTransferFeeAccountHasWithheldFee
                        && a.value.ext.confidentialFeeClosable == Some(false))
                    || (e == AccountHasWithheldTransferFees && a.value.Withheld() > 0)))
            || (a.None? && mint.Some?
                && (|| (e == ExtensionNotFound && CloseMint !in mint.value.ext.authorities)
                    || (e == AuthorityTypeNotSupported && mint.value.ext.Authority(CloseMint).None?)
                    || (e == MintHasSupply && mint.value.supply > 0)))
            || (e == Error.UninitializedAccount && a.None? && mint.None?)
  {
    hide ValidateOwner;
  }

  lemma AccountArmErrors(l: Ledger, a: Account, authority: Meta, signers: seq<Meta>, kind: AuthorityType,
                         next: Option<Pubkey>, env: Env, e: Error)
    requires SetAccountAuthority(l, a, authority, signers, kind, next, env) == Err(e)
    ensures var holder := if kind == AccountOwner then a.owner else a.Closer();
            || (e == AccountFrozen && a.frozen)
            || (e == AuthorityTypeNotSupported && kind != AccountOwner && kind != AuthorityType.CloseAccount)
            || ValidateOwner(l, holder, authority, signers) == Fail(e)
            || (e == Error.ImmutableOwner && kind == AccountOwner && a.ext.immutableOwner)
            || (e == CpiGuardSetAuthorityBlocked && a.ext.cpiGuard == Some(true) && env.inCpi
                && (kind == AccountOwner || next.Some?))
            || (e == CpiGuardOwnerChangeBlocked && a.ext.cpiGuard == Some(true) && !env.inCpi && kind == AccountOwner)
            || (e == Error.InvalidInstruction && kind == AccountOwner && next.None?)
  {
    hide ValidateOwner;
  }

  lemma MintArmErrors(l: Ledger, mint: Mint, authority: Meta, signers: seq<Meta>, kind: AuthorityType,
                      next: Option<Pubkey>, e: Error)
    requires SetMintAuthority(l, mint, authority, signers, kind, next) == Err(e)
    ensures var holder := HolderOf(mint, kind);
            || (holder.Some? && ValidateOwner(l, holder.value, authority, signers) == Fail(e))
            || (e == FixedSupply && kind == MintTokens && holder.None?)
            || (e == MintCannotFreeze && kind == FreezeAccount && holder.None?)
            || (e == AuthorityTypeNotSupported
                && (kind == AccountOwner || kind == AuthorityType.CloseAccount || holder.None?))
            || (e == ExtensionNotFound && kind !in mint.ext.authorities)
            || (e == InvalidArgument && next == Some(0))
  {
    hide ValidateOwner;
  }

  /** And so does setting an authority, on an account or on a mint. */
  lemma SetAuthorityErrors(l: Ledger, metas: seq<Meta>, kind: AuthorityType, next: Option<Pubkey>, env: Env, e: Error)
    requires H.SetAuthority(l, metas, kind, next, env) == Err(e)
    ensures |metas| < 2 ==> e == NotEnoughAccountKeys
    ensures |metas| >= 2 ==>
              var a, mint := AccountIn(l, metas, 0), MintIn(l, metas, 0);
              if a.Some? then SetAccountAuthority(l, a.value, metas[1], metas[2..], kind, next, env) == Err(e)
              else if mint.Some? then SetMintAuthority(l, mint.value, metas[1], metas[2..], kind, next) == Err(e)
              else e == Error.InvalidAccountData
  {
    hide SetAccountAuthority, SetMintAuthority;
  }

  // ------------------------------------------------------------ the other instructions

  /** The reasons why an account cannot become a mint, an account or a multisignature. */
  lemma InitializeErrors(l: Ledger, metas: seq<Meta>, decimals: u8, authority: Pubkey, freezeAuthority: Option<Pubkey>,
                         givenOwner: Option<Pubkey>, rentAccount: bool, env: Env, e: Error)
    ensures H.InitializeMint(l, metas, decimals, authority, freezeAuthority, rentAccount, env) == Err(e) ==>
              || (e == NotEnoughAccountKeys && |metas| < (if rentAccount then 2 else 1))
              || (metas != [] && var c := At(l, metas[0].key);
                  || (e == NotRentExempt && c.lamports < env.rent(c.data.Length()))
                  || (e == AlreadyInUse && c.data.MintData?)
                  || (e == ExtensionBaseMismatch && c.data.StagedAccount?)
                  || (e == Error.InvalidAccountData && (!AwaitsMint(c.data) || !env.room))
                  || (e == InvalidExtensionCombination && !Combinable(StagedForMint(c.data)))
                  || (e == MintCannotFreeze && freezeAuthority.None? && StagedForMint(c.data).defaultFrozen == Some(true)))
    ensures H.InitializeAccount(l, metas, givenOwner, rentAccount, env) == Err(e) ==>
              || (e == NotEnoughAccountKeys
                  && |metas| < 2 + (if givenOwner.None? then 1 else 0) + (if rentAccount then 1 else 0))
              || (|metas| >= 2 && var c := At(l, metas[0].key);
                  || (e == NotRentExempt && c.lamports < env.rent(c.data.Length()))
                  || (e == AlreadyInUse && c.data.AccountData?)
                  || (e == ExtensionBaseMismatch && c.data.StagedMint?)
                  || (e == Error.InvalidAccountData && (!AwaitsAccount(c.data) || !env.room))
                  || (e == InvalidMint && MintIn(l, metas, 1).None?)
                  || (e == IncorrectProgramId && !Ours(At(l, metas[1].key))))
  {
  }

  lemma MultisigErrors(l: Ledger, metas: seq<Meta>, m: u8, rentAccount: bool, env: Env, e: Error)
    requires H.InitializeMultisig(l, metas, m, rentAccount, env) == Err(e)
    ensures var skip := if rentAccount then 2 else 1;
            if |metas| < skip then e == NotEnoughAccountKeys
            else
              var c := At(l, metas[0].key);
              || (e == InvalidArgument && c.data.Length() != 355)
              || (e == AlreadyInUse && !c.data.Blank?)
              || (e == NotRentExempt && c.lamports < env.rent(355))
              || (e == InvalidNumberOfProvidedSigners && !(1 <= (|metas| - skip) % 256 <= 11))
              || (e == InvalidNumberOfRequiredSigners && !(1 <= m <= 11))
              || (e == Panic && |metas| - skip > 11)
  {
  }

  /** Why approving and revoking fail, */
  lemma AllowanceErrors(l: Ledger, metas: seq<Meta>, n: u64, decimals: Option<u8>, env: Env, e: Error)
    ensures H.Approve(l, metas, n, decimals, env) == Err(e) ==>
              var at, a, mint := if decimals.Some? then 3 else 2, AccountIn(l, metas, 0), MintIn(l, metas, 1);
              || Unreadable(metas, at + 1, a.Some? && (decimals.Some? ==> mint.Some?), e)
              || (|metas| > at && a.Some?
                  && (|| (e == AccountFrozen && a.value.frozen)
                      || (e == MintMismatch && decimals.Some? && a.value.mint != metas[1].key)
                      || (e == MintDecimalsMismatch && decimals.Some? && mint.Some? && decimals.value != mint.value.decimals)
                      || (e == CpiGuardApproveBlocked && a.value.ext.cpiGuard == Some(true) && env.inCpi)
                      || ValidateOwner(l, a.value.owner, metas[at], metas[at + 1..]) == Fail(e)))
    ensures H.Revoke(l, metas) == Err(e) ==>
              var a := AccountIn(l, metas, 0);
              || Unreadable(metas, 2, a.Some?, e)
              || (|metas| >= 2 && a.Some?
                  && (|| (e == AccountFrozen && a.value.frozen)
                      || ValidateOwner(l, if a.value.delegate == Some(metas[1].key) then metas[1].key else a.value.owner,
                                       metas[1], metas[2..]) == Fail(e)))
  {
    hide ValidateOwner;
  }

  /** freezing and synchronizing, */
  lemma FreezeErrors(l: Ledger, metas: seq<Meta>, freeze: bool, e: Error)
    ensures H.ToggleFreeze(l, metas, freeze) == Err(e) ==>
              var a, mint := AccountIn(l, metas, 0), MintIn(l, metas, 1);
              || Unreadable(metas, 3, a.Some? && mint.Some?, e)
              || (|metas| >= 3 && a.Some?
                  && (|| (e == Error.InvalidState && a.value.frozen == freeze)
                      || (e == NativeNotSupported && a.value.native.Some?)
                      || (e == MintMismatch && a.value.mint != metas[1].key)
                      || (mint.Some?
                          && (|| (e == MintCannotFreeze && mint.value.freezeAuthority.None?)
                              || (mint.value.freezeAuthority.Some?
                                  && ValidateOwner(l, mint.value.freezeAuthority.value, metas[2], metas[3..]) == Fail(e))))))
    ensures H.SyncNative(l, metas) == Err(e) ==>
              var a := AccountIn(l, metas, 0);
              || Unreadable(metas, 1, a.Some?, e)
              || (metas != []
                  && (|| (e == IncorrectProgramId && !Ours(At(l, metas[0].key)))
                      || (e == NonNativeNotSupported && a.Some? && a.value.native.None?)
                      || (a.Some? && a.value.native.Some?
                          && (|| (e == Error.Overflow && At(l, metas[0].key).lamports < a.value.native.value)
                              || (e == Error.InvalidState
                                  && At(l, metas[0].key).lamports < a.value.native.value + a.value.amount)))))
  {
    hide ValidateOwner;
  }

  /** withdrawing excess lamports, */
  lemma WithdrawErrors(l: Ledger, metas: seq<Meta>, env: Env, e: Error)
    requires H.WithdrawExcess(l, metas, env) == Err(e)
    ensures var a, mint := AccountIn(l, metas, 0), MintIn(l, metas, 0);
            if |metas| < 3 then e == NotEnoughAccountKeys
            else
              || (e == NotRentExempt
                  && At(l, metas[0].key).lamports < env.rent(At(l, metas[0].key).data.Length()))
              || e == Error.Overflow
              || (if a.Some? then
                    || (e == NativeNotSupported && a.value.native.Some?)
                    || ValidateOwner(l, a.value.owner, metas[2], metas[3..]) == Fail(e)
                  else if mint.Some? then
                    if mint.value.authority.Some? then
                      ValidateOwner(l, mint.value.authority.value, metas[2], metas[3..]) == Fail(e)
                    else if metas[0].key == metas[2].key then e == MissingRequiredSignature && !metas[2].signer
                    else e == AuthorityTypeNotSupported
                  else if At(l, metas[0].key).data.Length() == 355 then
                    ValidateOwner(l, metas[0].key, metas[2], metas[3..]) == Fail(e)
                  else e == Error.InvalidState)
  {
    hide ValidateOwner;
  }

  /** and changing the settings of a mint, */
  lemma MintSettingErrors(l: Ledger, metas: seq<Meta>, pause: bool, basisPoints: u16, maximumFee: u64, env: Env, e: Error)
    ensures X.TogglePause(l, metas, pause) == Err(e) ==>
              var mint := MintIn(l, metas, 0);
              || Unreadable(metas, 2, mint.Some?, e)
              || (|metas| >= 2 && mint.Some? && var holder := HolderOf(mint.value, Pause);
                  || (e == ExtensionNotFound && mint.value.ext.paused.None?)
                  || (e == AuthorityTypeNotSupported && holder.None?)
                  || (holder.Some? && ValidateOwner(l, holder.value, metas[1], metas[2..]) == Fail(e)))
    ensures X.SetTransferFee(l, metas, basisPoints, maximumFee, env) == Err(e) ==>
              var mint := MintIn(l, metas, 0);
              || Unreadable(metas, 2, mint.Some?, e)
              || (|metas| >= 2 && mint.Some? && var holder := HolderOf(mint.value, TransferFeeConfig);
                  || (e == ExtensionNotFound && mint.value.ext.fee.None?)
                  || (e == NoAuthorityExists && holder.None?)
                  || (e == TransferFeeExceedsMaximum && basisPoints > 10_000)
                  || (holder.Some? && ValidateOwner(l, holder.value, metas[1], metas[2..]) == Fail(e)))
  {
    hide ValidateOwner;
  }

  /** or the guard of an account. */
  lemma GuardErrors(l: Ledger, metas: seq<Meta>, enable: bool, env: Env, e: Error)
    requires X.ToggleCpiGuard(l, metas, enable, env) == Err(e)
    ensures var a := AccountIn(l, metas, 0);
            || Unreadable(metas, 2, a.Some?, e)
            || (|metas| >= 2 && a.Some?
                && (|| (e == CpiGuardSettingsLocked && env.inCpi)
                    || (e == Error.InvalidAccountData && a.value.ext.cpiGuard.None? && !env.room)
                    || ValidateOwner(l, a.value.owner, metas[1], metas[2..]) == Fail(e)))
  {
    hide ValidateOwner;
  }

  lemma ApplyErrors(ext: MintExt, s: Staging, epoch: u64, e: Error)
    requires X.ApplyStaging(ext, s, epoch) == Err(e)
    ensures || (e == TransferFeeExceedsMaximum && s.StageFee? && s.basisPoints > 10_000)
            || (e in {InvalidArgument, Error.InvalidInstruction} && !MayStage(s))
  {
    if s.StageOther? {
      OtherKinds(s.kind);
    }
  }

  /** Why staging fails, */
  lemma StageErrors(l: Ledger, metas: seq<Meta>, s: Staging, env: Env, e: Error)
    requires X.StageMint(l, metas, s, env) == Err(e)
    ensures || (e == NotEnoughAccountKeys && metas == [])
            || (metas != [] && var d := At(l, metas[0].key).data;
                || (e == AlreadyInUse && d.MintData?)
                || (e == ExtensionBaseMismatch && d.StagedAccount?)
                || (e == Error.InvalidAccountData && (!AwaitsMint(d) || !env.room || d.len <= 165)))
            || (e == TransferFeeExceedsMaximum && s.StageFee? && s.basisPoints > 10_000)
            || (e in {InvalidArgument, Error.InvalidInstruction} && !MayStage(s))
  {
    if metas != [] && AwaitsMint(At(l, metas[0].key).data) {
      var ext := StagedForMint(At(l, metas[0].key).data);
      if X.ApplyStaging(ext, s, env.epoch).Err? {
        ApplyErrors(ext, s, env.epoch, X.ApplyStaging(ext, s, env.epoch).error);
      }
    }
    hide X.ApplyStaging, MayStage;
  }

  lemma StageOwnerErrors(l: Ledger, metas: seq<Meta>, env: Env, e: Error)
    requires X.StageImmutableOwner(l, metas, env) == Err(e)
    ensures if metas == [] then e == NotEnoughAccountKeys
            else
              var d := At(l, metas[0].key).data;
              || (e == AlreadyInUse && d.AccountData?)
              || (e == ExtensionBaseMismatch && d.StagedMint?)
              || (e == Error.InvalidAccountData && (!AwaitsAccount(d) || !env.room || d.len <= 165))
  {
  }

  /** and withdrawing the fees collected in a mint. */
  lemma MintPayoutErrors(l: Ledger, metas: seq<Meta>, e: Error)
    requires X.WithdrawWithheldFromMint(l, metas) == Err(e)
    ensures var mint, d := MintIn(l, metas, 0), AccountIn(l, metas, 1);
            || Unreadable(metas, 3, mint.Some? && d.Some?, e)
            || (|metas| >= 3
                && (|| (e == IncorrectProgramId && !Ours(At(l, metas[0].key)))
                    || (mint.Some? && var holder := HolderOf(mint.value, WithheldWithdraw);
                        || (e == ExtensionNotFound && mint.value.ext.fee.None?)
                        || (e == NoAuthorityExists && holder.None?)
                        || (holder.Some? && ValidateOwner(l, holder.value, metas[2], metas[3..]) == Fail(e))
                        || (e == AccountBorrowFailed && metas[1].key == metas[0].key)
                        || (d.Some?
                            && (|| (e == MintMismatch && d.value.mint != metas[0].key)
                                || (e == AccountFrozen && d.value.frozen)
                                || (e == Error.Overflow && d.value.amount + mint.value.Withheld() > U64_MAX))))))
  {
    hide ValidateOwner;
  }
}
