/** The instruction handlers of `processor.rs` as functions from a ledger to a ledger. The
    imperative form that writes accounts in place is in module `Processor`. */
module Handlers {
  import opened Prelude
  import opened Ledger
  import opened Multisig

  /** Everything an instruction learns from the runtime: rent, call depth, sibling memo, epoch,
      whether extension bytes fit in the account, and the answer of the transfer hook. */
  datatype Env = Env(
    rent: nat -> u64,
    inCpi: bool,
    memoBefore: bool,
    epoch: u64,
    room: bool,
    hookOk: bool)

  datatype TransferKind =
    | Unchecked
    | Checked(decimals: u8)
    | CheckedWithFee(decimals: u8, fee: u64)

  /** Whose authority a debit rests on. */
  datatype Arm = ByPermanentDelegate | ByDelegate | ByOwner | Unowned

  function CheckedAdd(a: u64, b: u64): Result<u64> {
    if a + b > U64_MAX then Err(Overflow) else Ok(a + b)
  }

  function CheckedSub(a: u64, b: u64): Result<u64> {
    if a < b then Err(Overflow) else Ok(a - b)
  }

  function CheckProgram(c: Cell): Outcome {
    Need(Ours(c), IncorrectProgramId)
  }

  /** `validate_owner`: the expected key must be the authority given, and that authority must
      have signed or be a multisignature account whose signers are listed. */
  function ValidateOwner(l: Ledger, expected: Pubkey, authority: Meta, signers: seq<Meta>): Outcome {
    if expected != authority.key then Fail(OwnerMismatch)
    else
      var c := At(l, authority.key);
      if Ours(c) && c.data.Length() == MULTISIG_LEN then
        match c.data
        case MultisigData(m, n, keys) =>
          if n > MAX_SIGNERS then Fail(Panic)
          else Need(Accepts(keys[..n], m, signers), MissingRequiredSignature)
        case Blank(_) => Pass
        case _ => Fail(InvalidAccountData)
      else Need(authority.signer, MissingRequiredSignature)
  }

  // ---------------------------------------------------------------- initialization

  /** The extension combinations a mint may not have. */
  predicate ValidCombination(ext: MintExt) {
    var fee := ext.fee.Some?;
    var confidential := ConfidentialTransferMint in ext.authorities;
    var confidentialFee := ConfidentialTransferFeeConfig in ext.authorities;
    && (confidentialFee ==> fee && confidential)
    && (fee && confidential ==> confidentialFee)
    && (ext.confidentialMintBurn ==> confidential)
    && !(ScaledUiAmount in ext.authorities && InterestRate in ext.authorities)
  }

  function InitializeMint(l: Ledger, metas: seq<Meta>, decimals: u8, authority: Pubkey,
                          freezeAuthority: Option<Pubkey>, rentAccount: bool, env: Env): Result<Ledger> {
    var listed := |metas|;
    :- Need(listed >= if rentAccount then 2 else 1, NotEnoughAccountKeys);
    var k := metas[0].key;
    var c := At(l, k);
    :- Need(c.lamports >= env.rent(c.data.Length()), NotRentExempt);
    var ext :- UnpackUninitializedMint(c.data);
    :- Need(env.room, InvalidAccountData);
    :- Need(ValidCombination(ext), InvalidExtensionCombination);
    :- Need(!(ext.defaultFrozen == Some(true) && freezeAuthority.None?), MintCannotFreeze);
    Ok(WithMint(l, k, Mint(Some(authority), 0, decimals, freezeAuthority, ext)))
  }

  /** The account extensions a mint imposes on its new accounts. */
  function RequiredExtensions(ext: AccountExt, mint: MintExt): AccountExt {
    ext.(withheld := if mint.fee.Some? then Some(0) else ext.withheld,
         nonTransferable := ext.nonTransferable || mint.nonTransferable,
         immutableOwner := ext.immutableOwner || mint.nonTransferable,
         hook := if mint.hook.Some? then Some(false) else ext.hook,
         pausable := ext.pausable || mint.paused.Some?)
  }

  function InitializeAccount(l: Ledger, metas: seq<Meta>, givenOwner: Option<Pubkey>,
                             rentAccount: bool, env: Env): Result<Ledger> {
    var listed := |metas|;
    :- Need(listed >= 2 + (if givenOwner.None? then 1 else 0) + (if rentAccount then 1 else 0),
            NotEnoughAccountKeys);
    var k := metas[0].key;
    var mintKey := metas[1].key;
    var owner := if givenOwner.Some? then givenOwner.value else metas[2].key;
    var c := At(l, k);
    var ext :- UnpackUninitializedAccount(c.data);
    :- Need(c.lamports >= env.rent(c.data.Length()), NotRentExempt);
    :- Need(UnpackMint(At(l, mintKey).data).Ok?, InvalidMint);
    var mint :- UnpackMint(At(l, mintKey).data);
    :- CheckProgram(At(l, mintKey));
    :- Need(env.room, InvalidAccountData);
    var reserve := env.rent(c.data.Length());
    var backed :- if mintKey == NATIVE_MINT then CheckedSub(c.lamports, reserve) else Ok(0);
    Ok(WithAccount(l, k, Account(
         mintKey, owner, backed, None, mint.ext.defaultFrozen == Some(true),
         if mintKey == NATIVE_MINT then Some(reserve) else None, 0, None,
         RequiredExtensions(ext, mint.ext))))
  }

  predicate ValidSignerIndex(i: nat) {
    1 <= i <= MAX_SIGNERS
  }

  function InitializeMultisig(l: Ledger, metas: seq<Meta>, m: u8, rentAccount: bool, env: Env): Result<Ledger> {
    var skip := if rentAccount then 2 else 1;
    :- Need(|metas| >= skip, NotEnoughAccountKeys);
    var k := metas[0].key;
    var c := At(l, k);
    :- Need(c.data.Length() == MULTISIG_LEN, InvalidArgument);
    :- Need(c.data.Blank?, AlreadyInUse);
    :- Need(c.lamports >= env.rent(c.data.Length()), NotRentExempt);
    var n := (|metas| - skip) % 256;
    :- Need(ValidSignerIndex(n), InvalidNumberOfProvidedSigners);
    :- Need(ValidSignerIndex(m), InvalidNumberOfRequiredSigners);
    :- Need(|metas| - skip <= MAX_SIGNERS, Panic);
    Ok(WithData(l, k, MultisigData(m, n, StoredSigners(metas[skip..]))))
  }

  /** The eleven key slots: the listed signers, then zeroes. */
  function StoredSigners(signers: seq<Meta>): SignerSlots
    requires |signers| <= MAX_SIGNERS
  {
    seq(MAX_SIGNERS, i requires 0 <= i => if i < |signers| then signers[i].key else 0)
  }

  // ---------------------------------------------------------------- transfer and burn

  /** What a checked transfer learns from the mint. */
  datatype Quote = Quote(fee: u64, permanentDelegate: Option<Pubkey>, hook: Option<Pubkey>)

  function QuoteTransfer(l: Ledger, a: Account, mintKey: Pubkey, decimals: u8, amount: u64, env: Env): Result<Quote> {
    var sameMint := a.mint == mintKey;
    :- Need(sameMint, MintMismatch);
    var mint :- UnpackMint(At(l, mintKey).data);
    :- Need(decimals == mint.decimals, MintDecimalsMismatch);
    var fee :- if mint.ext.fee.None? then Ok(0)
               else match EpochFee(mint.ext.fee.value, env.epoch, amount)
                 case Some(f) => Ok(f)
                 case None => Err(Overflow);
    :- Need(mint.ext.paused != Some(true), MintPaused);
    Ok(Quote(fee, mint.PermanentDelegate(), mint.ext.hook.UnwrapOr(None)))
  }

  function QuoteUnchecked(a: Account): Result<Quote> {
    var unhooked := a.ext.hook.None?;
    :- Need(unhooked, MintRequiredForTransfer);
    :- Need(a.ext.withheld.None?, MintRequiredForTransfer);
    :- Need(!a.ext.pausable, MintRequiredForTransfer);
    Ok(Quote(0, None, None))
  }

  function QuoteFor(l: Ledger, a: Account, metas: seq<Meta>, amount: u64, kind: TransferKind, env: Env): Result<Quote>
    requires !kind.Unchecked? ==> |metas| >= 2
  {
    if kind.Unchecked? then QuoteUnchecked(a)
    else QuoteTransfer(l, a, metas[1].key, kind.decimals, amount, env)
  }

  /** Where the receiving account stands in a transfer's account list. */
  function DestinationIndex(kind: TransferKind): nat {
    if kind.Unchecked? then 1 else 2
  }

  /** The match of the transfer and burn handlers: permanent delegate first, then delegate. */
  function SpendArm(a: Account, permanentDelegate: Option<Pubkey>, authority: Pubkey): Arm {
    if permanentDelegate == Some(authority) then ByPermanentDelegate
    else if a.delegate == Some(authority) then ByDelegate
    else ByOwner
  }

  /** The account after the delegate has used up part of the allowance. */
  function UseAllowance(a: Account, amount: u64): Account
    requires amount <= a.delegatedAmount
  {
    a.(delegatedAmount := a.delegatedAmount - amount,
       delegate := if a.delegatedAmount == amount then None else a.delegate)
  }

  /** Validates the authority of a debit and charges the allowance when a delegate spends. */
  function Spend(l: Ledger, a: Account, permanentDelegate: Option<Pubkey>, authority: Meta,
                 signers: seq<Meta>, amount: u64, charge: bool): Result<Account> {
    match SpendArm(a, permanentDelegate, authority.key)
    case ByDelegate =>
      :- ValidateOwner(l, authority.key, authority, signers);
      :- Need(a.delegatedAmount >= amount, InsufficientFunds);
      Ok(if charge then UseAllowance(a, amount) else a)
    case ByPermanentDelegate =>
      :- ValidateOwner(l, authority.key, authority, signers);
      Ok(a)
    case _ =>
      :- ValidateOwner(l, a.owner, authority, signers);
      Ok(a)
  }

  /** The checks on the receiving account of a transfer between different accounts. */
  function CheckDestination(mint: Pubkey, d: Account, env: Env): Outcome {
    if d.frozen then Fail(AccountFrozen)
    else if mint != d.mint then Fail(MintMismatch)
    else if d.ext.memo == Some(true) && !env.memoBefore then Fail(NoMemo)
    else if d.ext.confidential.Some? && !d.ext.confidential.value.allowsPlainCredits
      then Fail(NonConfidentialTransfersDisabled)
    else Pass
  }

  /** The receiving account after a credit of `amount`, of which `fee` is withheld. */
  function Credit(d: Account, amount: u64, fee: u64): Result<Account> {
    var net :- CheckedSub(amount, fee);
    var balance :- CheckedAdd(d.amount, net);
    if fee == 0 then Ok(d.(amount := balance))
    else if d.ext.withheld.None? then Err(InvalidState)
    else
      var held :- CheckedAdd(d.ext.withheld.value, fee);
      Ok(d.(amount := balance, ext := d.ext.(withheld := Some(held))))
  }

  function MoveLamports(l: Ledger, source: Pubkey, destination: Pubkey, amount: u64): Result<Ledger> {
    var less :- CheckedSub(At(l, source).lamports, amount);
    var l1 := WithLamports(l, source, less);
    var more :- CheckedAdd(At(l1, destination).lamports, amount);
    Ok(WithLamports(l1, destination, more))
  }

  /** After the hook has run both transferring flags are off again. */
  function ClearTransferring(a: Account): Account {
    a.(ext := a.ext.(hook := Some(false)))
  }

  function RunHook(l: Ledger, hook: Option<Pubkey>, source: Pubkey, s: Account,
                   destination: Pubkey, d: Account, env: Env): Result<Ledger> {
    if hook.None? then Ok(WithAccount(WithAccount(l, source, s), destination, d))
    else
      :- Need(s.ext.hook.Some? && d.ext.hook.Some?, ExtensionNotFound);
      :- Need(env.hookOk, HookFailed);
      Ok(WithAccount(WithAccount(l, source, ClearTransferring(s)), destination, ClearTransferring(d)))
  }

  /** The second half of a transfer between different accounts: `s` is the source account, not
      yet debited. */
  function Deliver(l: Ledger, source: Pubkey, s: Account, destination: Pubkey, amount: u64,
                   quote: Quote, env: Env): Result<Ledger>
    requires amount <= s.amount
  {
    var d :- UnpackAccount(At(l, destination).data);
    :- CheckDestination(s.mint, d, env);
    var d' :- Credit(d, amount, quote.fee);
    var l1 :- if s.native.Some? then MoveLamports(l, source, destination, amount) else Ok(l);
    RunHook(l1, quote.hook, source, s.(amount := s.amount - amount), destination, d', env)
  }

  function Transfer(l: Ledger, metas: seq<Meta>, amount: u64, kind: TransferKind, env: Env): Result<Ledger> {
    var skip := DestinationIndex(kind);
    :- Need(|metas| >= skip + 2, NotEnoughAccountKeys);
    var source, destination, authority := metas[0].key, metas[skip].key, metas[skip + 1];
    var a :- UnpackAccount(At(l, source).data);
    :- Need(!a.frozen, AccountFrozen);
    :- Need(a.amount >= amount, InsufficientFunds);
    :- Need(!a.ext.nonTransferable, NonTransferable);
    var quote :- QuoteFor(l, a, metas, amount, kind, env);
    :- Need(kind.CheckedWithFee? ==> quote.fee == kind.fee, FeeMismatch);
    :- Need(!(a.Guarded() && env.inCpi && authority.key == a.owner), CpiGuardTransferBlocked);
    var s :- Spend(l, a, quote.permanentDelegate, authority, metas[skip + 2..], amount, source != destination);
    :- CheckProgram(At(l, source));
    :- CheckProgram(At(l, destination));
    if source == destination then
      :- Need(a.ext.memo == Some(true) ==> env.memoBefore, NoMemo);
      Ok(l)
    else Deliver(l, source, s, destination, amount, quote, env)
  }

  function Burn(l: Ledger, metas: seq<Meta>, amount: u64, decimals: Option<u8>, env: Env): Result<Ledger> {
    var listed := |metas|;
    :- Need(listed >= 3, NotEnoughAccountKeys);
    var source, mintKey, authority := metas[0].key, metas[1].key, metas[2];
    var a :- UnpackAccount(At(l, source).data);
    var mint :- UnpackMint(At(l, mintKey).data);
    :- Need(!a.frozen, AccountFrozen);
    :- Need(a.native.None?, NativeNotSupported);
    :- Need(a.amount >= amount, InsufficientFunds);
    :- Need(a.mint == mintKey, MintMismatch);
    :- Need(decimals.Some? ==> decimals.value == mint.decimals, MintDecimalsMismatch);
    :- Need(mint.ext.paused != Some(true), MintPaused);
    :- Need(!(a.Guarded() && env.inCpi && authority.key == a.owner), CpiGuardBurnBlocked);
    var s :- if a.OwnedBySystemOrIncinerator() then Ok(a)
             else Spend(l, a, mint.PermanentDelegate(), authority, metas[3..], amount, true);
    :- CheckProgram(At(l, source));
    :- CheckProgram(At(l, mintKey));
    var supply :- CheckedSub(mint.supply, amount);
    Ok(WithMint(WithAccount(l, source, s.(amount := a.amount - amount)), mintKey, mint.(supply := supply)))
  }

  function MintTo(l: Ledger, metas: seq<Meta>, amount: u64, decimals: Option<u8>): Result<Ledger> {
    var listed := |metas|;
    :- Need(listed >= 3, NotEnoughAccountKeys);
    var mintKey, destination, authority := metas[0].key, metas[1].key, metas[2];
    var d :- UnpackAccount(At(l, destination).data);
    :- Need(!d.frozen, AccountFrozen);
    :- Need(d.native.None?, NativeNotSupported);
    :- Need(d.mint == mintKey, MintMismatch);
    var mint :- UnpackMint(At(l, mintKey).data);
    :- Need(mint.ext.nonTransferable ==> d.ext.immutableOwner, NonTransferableNeedsImmutableOwnership);
    :- Need(mint.ext.paused != Some(true), MintPaused);
    :- Need(!mint.ext.confidentialMintBurn, IllegalMintBurnConversion);
    :- Need(decimals.Some? ==> decimals.value == mint.decimals, MintDecimalsMismatch);
    :- Need(mint.authority.Some?, FixedSupply);
    :- ValidateOwner(l, mint.authority.value, authority, metas[3..]);
    :- CheckProgram(At(l, mintKey));
    :- CheckProgram(At(l, destination));
    var balance :- CheckedAdd(d.amount, amount);
    var supply :- CheckedAdd(mint.supply, amount);
    Ok(WithMint(WithAccount(l, destination, d.(amount := balance)), mintKey, mint.(supply := supply)))
  }

  // ---------------------------------------------------------------- allowances and authorities

  function Approve(l: Ledger, metas: seq<Meta>, amount: u64, decimals: Option<u8>, env: Env): Result<Ledger> {
    var skip := if decimals.Some? then 2 else 1;
    :- Need(|metas| >= skip + 2, NotEnoughAccountKeys);
    var source := metas[0].key;
    var a :- UnpackAccount(At(l, source).data);
    :- Need(!a.frozen, AccountFrozen);
    :- if decimals.None? then Pass else CheckDecimals(l, a, metas[1].key, decimals.value);
    :- ValidateOwner(l, a.owner, metas[skip + 1], metas[skip + 2..]);
    :- Need(!(a.Guarded() && env.inCpi), CpiGuardApproveBlocked);
    Ok(WithAccount(l, source, a.(delegate := Some(metas[skip].key), delegatedAmount := amount)))
  }

  function CheckDecimals(l: Ledger, a: Account, mintKey: Pubkey, decimals: u8): Outcome {
    if a.mint != mintKey then Fail(MintMismatch)
    else match UnpackMint(At(l, mintKey).data)
      case Err(e) => Fail(e)
      case Ok(mint) => Need(decimals == mint.decimals, MintDecimalsMismatch)
  }

  function Revoke(l: Ledger, metas: seq<Meta>): Result<Ledger> {
    var listed := |metas|;
    :- Need(listed >= 2, NotEnoughAccountKeys);
    var source := metas[0].key;
    var a :- UnpackAccount(At(l, source).data);
    :- Need(!a.frozen, AccountFrozen);
    var expected := if a.delegate == Some(metas[1].key) then metas[1].key else a.owner;
    :- ValidateOwner(l, expected, metas[1], metas[2..]);
    Ok(WithAccount(l, source, a.(delegate := None, delegatedAmount := 0)))
  }

  /** An optional key extension field cannot hold the zero key. */
  function NonZero(key: Option<Pubkey>): Result<Option<Pubkey>> {
    if key == Some(0) then Err(InvalidArgument) else Ok(key)
  }

  /** The extension authorities of a mint all follow one pattern. */
  predicate IsExtensionAuthority(kind: AuthorityType) {
    kind !in {MintTokens, FreezeAccount, AccountOwner, AuthorityType.CloseAccount}
  }

  function SetAuthority(l: Ledger, metas: seq<Meta>, kind: AuthorityType, next: Option<Pubkey>, env: Env): Result<Ledger> {
    var listed := |metas|;
    :- Need(listed >= 2, NotEnoughAccountKeys);
    var k := metas[0].key;
    match UnpackAccount(At(l, k).data)
    case Ok(a) =>
      var a' :- SetAccountAuthority(l, a, metas[1], metas[2..], kind, next, env);
      Ok(WithAccount(l, k, a'))
    case Err(_) =>
      match UnpackMint(At(l, k).data)
      case Ok(mint) =>
        var mint' :- SetMintAuthority(l, mint, metas[1], metas[2..], kind, next);
        Ok(WithMint(l, k, mint'))
      case Err(_) => Err(InvalidAccountData)
  }

  function SetAccountAuthority(l: Ledger, a: Account, authority: Meta, signers: seq<Meta>,
                               kind: AuthorityType, next: Option<Pubkey>, env: Env): Result<Account> {
    var movable := !a.frozen;
    :- Need(movable, AccountFrozen);
    match kind
    case AccountOwner =>
      :- ValidateOwner(l, a.owner, authority, signers);
      :- Need(!a.ext.immutableOwner, Error.ImmutableOwner);
      :- Need(!(a.Guarded() && env.inCpi), CpiGuardSetAuthorityBlocked);
      :- Need(!a.Guarded(), CpiGuardOwnerChangeBlocked);
      :- Need(next.Some?, InvalidInstruction);
      Ok(a.(owner := next.value, delegate := None, delegatedAmount := 0,
            closeAuthority := if a.native.Some? then None else a.closeAuthority))
    case CloseAccount =>
      :- ValidateOwner(l, a.Closer(), authority, signers);
      :- Need(!(a.Guarded() && env.inCpi && next.Some?), CpiGuardSetAuthorityBlocked);
      Ok(a.(closeAuthority := next))
    case _ => Err(AuthorityTypeNotSupported)
  }

  function SetMintAuthority(l: Ledger, mint: Mint, authority: Meta, signers: seq<Meta>,
                            kind: AuthorityType, next: Option<Pubkey>): Result<Mint> {
    if kind == MintTokens then
      :- Need(mint.authority.Some?, FixedSupply);
      :- ValidateOwner(l, mint.authority.value, authority, signers);
      Ok(mint.(authority := next))
    else if kind == FreezeAccount then
      :- Need(mint.freezeAuthority.Some?, MintCannotFreeze);
      :- ValidateOwner(l, mint.freezeAuthority.value, authority, signers);
      Ok(mint.(freezeAuthority := next))
    else
      :- Need(IsExtensionAuthority(kind), AuthorityTypeNotSupported);
      :- Need(kind in mint.ext.authorities, ExtensionNotFound);
      :- Need(mint.ext.Authority(kind).Some?, AuthorityTypeNotSupported);
      :- ValidateOwner(l, mint.ext.Authority(kind).value, authority, signers);
      var slot :- NonZero(next);
      Ok(mint.(ext := mint.ext.(authorities := mint.ext.authorities[kind := slot])))
  }

  // ---------------------------------------------------------------- close, freeze, native, excess

  /** The conditions under which a token account may be closed into `destination`. */
  function CheckCloseAccount(l: Ledger, a: Account, destination: Pubkey, authority: Meta,
                             signers: seq<Meta>, env: Env): Outcome {
    if a.native.None? && a.amount != 0 then Fail(NonNativeHasBalance)
    else
      var allowed :=
        if a.OwnedBySystemOrIncinerator() then Need(destination == INCINERATOR, InvalidAccountData)
        else if a.Guarded() && env.inCpi && destination != a.owner then Fail(CpiGuardCloseAccountBlocked)
        else ValidateOwner(l, a.Closer(), authority, signers);
      if allowed.Fail? then allowed
      else if a.ext.confidential.Some? && !a.ext.confidential.value.closable
        then Fail(ConfidentialTransferAccountHasBalance)
      else if a.ext.confidentialFeeClosable == Some(false)
        then Fail(ConfidentialTransferFeeAccountHasWithheldFee)
      else Need(a.Withheld() == 0, AccountHasWithheldTransferFees)
  }

  function CheckCloseMint(l: Ledger, mint: Mint, authority: Meta, signers: seq<Meta>): Outcome {
    if CloseMint !in mint.ext.authorities then Fail(ExtensionNotFound)
    else if mint.ext.Authority(CloseMint).None? then Fail(AuthorityTypeNotSupported)
    else
      var valid := ValidateOwner(l, mint.ext.Authority(CloseMint).value, authority, signers);
      if valid.Fail? then valid else Need(mint.supply == 0, MintHasSupply)
  }

  function CloseAccount(l: Ledger, metas: seq<Meta>, env: Env): Result<Ledger> {
    var listed := |metas|;
    :- Need(listed >= 3, NotEnoughAccountKeys);
    var source, destination, authority := metas[0].key, metas[1].key, metas[2];
    :- Need(source != destination, InvalidAccountData);
    :- match UnpackAccount(At(l, source).data)
       case Ok(a) => CheckCloseAccount(l, a, destination, authority, metas[3..], env)
       case Err(_) =>
         match UnpackMint(At(l, source).data)
         case Ok(mint) => CheckCloseMint(l, mint, authority, metas[3..])
         case Err(_) => Fail(UninitializedAccount);
    var sum :- CheckedAdd(At(l, destination).lamports, At(l, source).lamports);
    Ok(WithLamports(l, destination, sum)[source := EMPTY])
  }

  function ToggleFreeze(l: Ledger, metas: seq<Meta>, freeze: bool): Result<Ledger> {
    var listed := |metas|;
    :- Need(listed >= 3, NotEnoughAccountKeys);
    var source, mintKey := metas[0].key, metas[1].key;
    var a :- UnpackAccount(At(l, source).data);
    :- Need(a.frozen != freeze, InvalidState);
    :- Need(a.native.None?, NativeNotSupported);
    :- Need(a.mint == mintKey, MintMismatch);
    var mint :- UnpackMint(At(l, mintKey).data);
    :- Need(mint.freezeAuthority.Some?, MintCannotFreeze);
    :- ValidateOwner(l, mint.freezeAuthority.value, metas[2], metas[3..]);
    Ok(WithAccount(l, source, a.(frozen := freeze)))
  }

  function SyncNative(l: Ledger, metas: seq<Meta>): Result<Ledger> {
    var listed := |metas|;
    :- Need(listed >= 1, NotEnoughAccountKeys);
    var k := metas[0].key;
    :- CheckProgram(At(l, k));
    var a :- UnpackAccount(At(l, k).data);
    :- Need(a.native.Some?, NonNativeNotSupported);
    var backed :- CheckedSub(At(l, k).lamports, a.native.value);
    :- Need(backed >= a.amount, InvalidState);
    Ok(WithAccount(l, k, a.(amount := backed)))
  }

  function CheckWithdrawExcess(l: Ledger, source: Pubkey, authority: Meta, signers: seq<Meta>): Outcome {
    match UnpackAccount(At(l, source).data)
    case Ok(a) =>
      if a.native.Some? then Fail(NativeNotSupported) else ValidateOwner(l, a.owner, authority, signers)
    case Err(_) =>
      match UnpackMint(At(l, source).data)
      case Ok(mint) =>
        if mint.authority.Some? then ValidateOwner(l, mint.authority.value, authority, signers)
        else if source == authority.key then Need(authority.signer, MissingRequiredSignature)
        else Fail(AuthorityTypeNotSupported)
      case Err(_) =>
        if At(l, source).data.Length() == MULTISIG_LEN then ValidateOwner(l, source, authority, signers)
        else Fail(InvalidState)
  }

  function WithdrawExcess(l: Ledger, metas: seq<Meta>, env: Env): Result<Ledger> {
    var listed := |metas|;
    :- Need(listed >= 3, NotEnoughAccountKeys);
    var source, destination := metas[0].key, metas[1].key;
    :- CheckWithdrawExcess(l, source, metas[2], metas[3..]);
    var reserve := env.rent(At(l, source).data.Length());
    :- Need(At(l, source).lamports >= reserve, NotRentExempt);
    MoveLamports(l, source, destination, At(l, source).lamports - reserve)
  }
}
