/** The extension processors whose effects the ledger properties depend on: staging mint
    extensions, pausing, the CPI guard, and the three movements of withheld fees. */
module Extensions {
  import opened Prelude
  import opened Ledger
  import opened Multisig
  import opened Handlers

  /** A mint extension written before the mint itself is initialized. */
  datatype Staging =
    | StageCloseAuthority(closer: Option<Pubkey>)
    | StagePermanentDelegate(delegate: Pubkey)
    | StageNonTransferable
    | StageFee(configAuthority: Option<Pubkey>, withdrawAuthority: Option<Pubkey>, basisPoints: u16, maximumFee: u64)
    | StagePausable(pauser: Pubkey)
    | StageHook(authority: Option<Pubkey>, program: Option<Pubkey>)
    | StageDefaultState(frozen: bool)
    | StageOther(kind: AuthorityType, authority: Option<Pubkey>)

  function StageSlot(ext: MintExt, kind: AuthorityType, key: Option<Pubkey>): Result<MintExt> {
    var slot :- NonZero(key);
    Ok(ext.(authorities := ext.authorities[kind := slot]))
  }

  function ApplyStaging(ext: MintExt, s: Staging, epoch: u64): Result<MintExt> {
    match s
    case StageCloseAuthority(key) => StageSlot(ext, CloseMint, key)
    case StagePermanentDelegate(key) => StageSlot(ext, AuthorityType.PermanentDelegate, Some(key))
    case StageNonTransferable => Ok(ext.(nonTransferable := true))
    case StageFee(config, withdraw, bp, max) =>
      var ext1 :- StageSlot(ext, TransferFeeConfig, config);
      var ext2 :- StageSlot(ext1, WithheldWithdraw, withdraw);
      :- Need(bp <= 10_000, TransferFeeExceedsMaximum);
      var fee := TransferFee(epoch, max, bp);
      Ok(ext2.(fee := Some(FeeConfig(fee, fee, 0))))
    case StagePausable(key) =>
      var ext1 :- StageSlot(ext, Pause, Some(key));
      Ok(ext1.(paused := Some(false)))
    case StageHook(key, program) =>
      var ext1 :- StageSlot(ext, TransferHookProgramId, key);
      var p :- NonZero(program);
      Ok(ext1.(hook := Some(p)))
    case StageDefaultState(frozen) => Ok(ext.(defaultFrozen := Some(frozen)))
    case StageOther(kind, key) =>
      :- Need(kind in {InterestRate, ConfidentialTransferMint, ConfidentialTransferFeeConfig,
                       MetadataPointer, GroupPointer, GroupMemberPointer, ScaledUiAmount},
              InvalidInstruction);
      StageSlot(ext, kind, key)
  }

  function StageMint(l: Ledger, metas: seq<Meta>, s: Staging, env: Env): Result<Ledger> {
    var listed := |metas|;
    :- Need(listed >= 1, NotEnoughAccountKeys);
    var k := metas[0].key;
    var ext :- UnpackUninitializedMint(At(l, k).data);
    :- Need(env.room && At(l, k).data.Length() > ACCOUNT_LEN, InvalidAccountData);
    var ext' :- ApplyStaging(ext, s, env.epoch);
    Ok(WithData(l, k, Data.StagedMint(At(l, k).data.Length(), ext')))
  }

  function StageImmutableOwner(l: Ledger, metas: seq<Meta>, env: Env): Result<Ledger> {
    var listed := |metas|;
    :- Need(listed >= 1, NotEnoughAccountKeys);
    var k := metas[0].key;
    var ext :- UnpackUninitializedAccount(At(l, k).data);
    :- Need(env.room && At(l, k).data.Length() > ACCOUNT_LEN, InvalidAccountData);
    Ok(WithData(l, k, StagedAccount(At(l, k).data.Length(), ext.(immutableOwner := true))))
  }

  function TogglePause(l: Ledger, metas: seq<Meta>, pause: bool): Result<Ledger> {
    var listed := |metas|;
    :- Need(listed >= 2, NotEnoughAccountKeys);
    var k := metas[0].key;
    var mint :- UnpackMint(At(l, k).data);
    :- Need(mint.ext.paused.Some?, ExtensionNotFound);
    :- Need(mint.ext.Authority(Pause).Some?, AuthorityTypeNotSupported);
    :- ValidateOwner(l, mint.ext.Authority(Pause).value, metas[1], metas[2..]);
    Ok(WithMint(l, k, mint.(ext := mint.ext.(paused := Some(pause)))))
  }

  function SetTransferFee(l: Ledger, metas: seq<Meta>, basisPoints: u16, maximumFee: u64, env: Env): Result<Ledger> {
    var listed := |metas|;
    :- Need(listed >= 2, NotEnoughAccountKeys);
    var k := metas[0].key;
    var mint :- UnpackMint(At(l, k).data);
    :- Need(mint.ext.fee.Some?, ExtensionNotFound);
    :- Need(mint.ext.Authority(TransferFeeConfig).Some?, NoAuthorityExists);
    :- ValidateOwner(l, mint.ext.Authority(TransferFeeConfig).value, metas[1], metas[2..]);
    :- Need(basisPoints <= 10_000, TransferFeeExceedsMaximum);
    var config := mint.ext.fee.value;
    var older := if config.newer.epoch <= env.epoch then config.newer else config.older;
    var start := if env.epoch + 2 <= U64_MAX then env.epoch + 2 else U64_MAX;
    Ok(WithMint(l, k, mint.(ext := mint.ext.(fee := Some(
         FeeConfig(older, TransferFee(start, maximumFee, basisPoints), config.withheld))))))
  }

  function ToggleCpiGuard(l: Ledger, metas: seq<Meta>, enable: bool, env: Env): Result<Ledger> {
    var listed := |metas|;
    :- Need(listed >= 2, NotEnoughAccountKeys);
    var k := metas[0].key;
    var a :- UnpackAccount(At(l, k).data);
    :- ValidateOwner(l, a.owner, metas[1], metas[2..]);
    :- Need(!env.inCpi, CpiGuardSettingsLocked);
    :- Need(a.ext.cpiGuard.Some? || env.room, InvalidAccountData);
    Ok(WithAccount(l, k, a.(ext := a.ext.(cpiGuard := Some(enable)))))
  }

  // ---------------------------------------------------------------- withheld fees

  /** The withdraw authority of a fee mint has signed. */
  function CheckWithdrawAuthority(l: Ledger, mint: Mint, authority: Meta, signers: seq<Meta>): Outcome {
    if mint.ext.fee.None? then Fail(ExtensionNotFound)
    else if mint.ext.Authority(WithheldWithdraw).None? then Fail(NoAuthorityExists)
    else ValidateOwner(l, mint.ext.Authority(WithheldWithdraw).value, authority, signers)
  }

  /** The receiver of withheld fees: another cell than the mint, of that mint, not frozen. */
  function FeeReceiver(l: Ledger, mintKey: Pubkey, destination: Pubkey): Result<Account> {
    var other := destination != mintKey;
    :- Need(other, AccountBorrowFailed);
    var d :- UnpackAccount(At(l, destination).data);
    :- Need(d.mint == mintKey, MintMismatch);
    :- Need(!d.frozen, AccountFrozen);
    Ok(d)
  }

  function SetMintWithheld(mint: Mint, amount: u64): Mint
    requires mint.ext.fee.Some?
  {
    mint.(ext := mint.ext.(fee := Some(mint.ext.fee.value.(withheld := amount))))
  }

  function WithdrawWithheldFromMint(l: Ledger, metas: seq<Meta>): Result<Ledger> {
    var listed := |metas|;
    :- Need(listed >= 3, NotEnoughAccountKeys);
    var mintKey, destination := metas[0].key, metas[1].key;
    :- CheckProgram(At(l, mintKey));
    var mint :- UnpackMint(At(l, mintKey).data);
    :- CheckWithdrawAuthority(l, mint, metas[2], metas[3..]);
    var d :- FeeReceiver(l, mintKey, destination);
    var balance :- CheckedAdd(d.amount, mint.Withheld());
    Ok(WithAccount(WithMint(l, mintKey, SetMintWithheld(mint, 0)), destination, d.(amount := balance)))
  }

  /** Whether an account can be harvested for this mint; the others are skipped. */
  predicate Harvestable(l: Ledger, mintKey: Pubkey, k: Pubkey) {
    && UnpackAccount(At(l, k).data).Ok?
    && UnpackAccount(At(l, k).data).value.mint == mintKey
    && Ours(At(l, k))
    && UnpackAccount(At(l, k).data).value.ext.withheld.Some?
  }

  function Drained(a: Account): Account {
    a.(ext := a.ext.(withheld := Some(0)))
  }

  function HarvestOne(l: Ledger, mintKey: Pubkey, k: Pubkey): Result<Ledger> {
    var other := k != mintKey;
    :- Need(other, AccountBorrowFailed);
    if !Harvestable(l, mintKey, k) then Ok(l)
    else
      var a := UnpackAccount(At(l, k).data).value;
      var mint :- UnpackMint(At(l, mintKey).data);
      :- Need(mint.ext.fee.Some?, ExtensionNotFound);
      var total :- CheckedAdd(mint.Withheld(), a.Withheld());
      Ok(WithMint(WithAccount(l, k, Drained(a)), mintKey, SetMintWithheld(mint, total)))
  }

  function HarvestAll(l: Ledger, mintKey: Pubkey, sources: seq<Meta>): Result<Ledger> {
    if sources == [] then Ok(l)
    else
      var l1 :- HarvestOne(l, mintKey, sources[0].key);
      HarvestAll(l1, mintKey, sources[1..])
  }

  function HarvestWithheldToMint(l: Ledger, metas: seq<Meta>): Result<Ledger> {
    var listed := |metas|;
    :- Need(listed >= 1, NotEnoughAccountKeys);
    var mint :- UnpackMint(At(l, metas[0].key).data);
    :- Need(mint.ext.fee.Some?, ExtensionNotFound);
    HarvestAll(l, metas[0].key, metas[1..])
  }

  /** Moves the withheld fee of one account into the receiver's balance, in place. */
  function CollectOne(l: Ledger, mintKey: Pubkey, destination: Pubkey, k: Pubkey): Result<Ledger> {
    var d :- UnpackAccount(At(l, destination).data);
    if k == destination then
      :- Need(d.ext.withheld.Some?, InvalidState);
      var balance :- CheckedAdd(d.amount, d.Withheld());
      Ok(WithAccount(l, k, Drained(d).(amount := balance)))
    else
      :- Need(k != mintKey, AccountBorrowFailed);
      if !Harvestable(l, mintKey, k) then Ok(l)
      else
        var a := UnpackAccount(At(l, k).data).value;
        var balance :- CheckedAdd(d.amount, a.Withheld());
        Ok(WithAccount(WithAccount(l, k, Drained(a)), destination, d.(amount := balance)))
  }

  function CollectAll(l: Ledger, mintKey: Pubkey, destination: Pubkey, sources: seq<Meta>): Result<Ledger> {
    if sources == [] then Ok(l)
    else
      var l1 :- CollectOne(l, mintKey, destination, sources[0].key);
      CollectAll(l1, mintKey, destination, sources[1..])
  }

  function WithdrawWithheldFromAccounts(l: Ledger, metas: seq<Meta>, count: u8): Result<Ledger> {
    var listed := |metas|;
    :- Need(listed >= 3, NotEnoughAccountKeys);
    var mintKey, destination := metas[0].key, metas[1].key;
    var rest := metas[3..];
    var signers := if |rest| >= count then |rest| - count else 0;
    :- CheckProgram(At(l, mintKey));
    var mint :- UnpackMint(At(l, mintKey).data);
    :- CheckWithdrawAuthority(l, mint, metas[2], rest[..signers]);
    var d :- FeeReceiver(l, mintKey, destination);
    CollectAll(l, mintKey, destination, rest[signers..])
  }
}
