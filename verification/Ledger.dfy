/** The accounts the token program works on, and the ways it reads them. */
module Ledger {
  import opened Prelude

  const MINT_LEN: nat := 82
  const ACCOUNT_LEN: nat := 165
  const MULTISIG_LEN: nat := 355

  /** Confidential balances are encrypted; only the two answers the handlers ask for remain. */
  datatype Confidential = Confidential(allowsPlainCredits: bool, closable: bool)

  /** Account extensions: `None` or `false` where the account lacks the extension. */
  datatype AccountExt = AccountExt(
    withheld: Option<u64>,
    immutableOwner: bool,
    nonTransferable: bool,
    hook: Option<bool>,
    pausable: bool,
    cpiGuard: Option<bool>,
    memo: Option<bool>,
    confidential: Option<Confidential>,
    confidentialFeeClosable: Option<bool>)

  const PLAIN_ACCOUNT: AccountExt :=
    AccountExt(None, false, false, None, false, None, None, None, None)

  /** An initialized or frozen token account; `native` holds the rent reserve of wrapped SOL. */
  datatype Account = Account(
    mint: Pubkey,
    owner: Pubkey,
    amount: u64,
    delegate: Option<Pubkey>,
    frozen: bool,
    native: Option<u64>,
    delegatedAmount: u64,
    closeAuthority: Option<Pubkey>,
    ext: AccountExt)
  {
    predicate OwnedBySystemOrIncinerator() {
      owner == SYSTEM_PROGRAM || owner == INCINERATOR
    }

    /** The CPI guard is present and switched on. */
    predicate Guarded() {
      ext.cpiGuard == Some(true)
    }

    function Withheld(): u64 {
      ext.withheld.UnwrapOr(0)
    }

    function Closer(): Pubkey {
      closeAuthority.UnwrapOr(owner)
    }
  }

  datatype TransferFee = TransferFee(epoch: u64, maximumFee: u64, basisPoints: u16)

  datatype FeeConfig = FeeConfig(older: TransferFee, newer: TransferFee, withheld: u64)

  /** Mint extensions. `authorities` has an entry for every extension authority slot the mint
      carries; a slot can be present and empty. The permanent delegate and the close authority
      of a mint are such slots. */
  datatype MintExt = MintExt(
    authorities: map<AuthorityType, Option<Pubkey>>,
    fee: Option<FeeConfig>,
    paused: Option<bool>,
    hook: Option<Option<Pubkey>>,
    nonTransferable: bool,
    confidentialMintBurn: bool,
    defaultFrozen: Option<bool>)
  {
    function Authority(kind: AuthorityType): Option<Pubkey> {
      if kind in authorities then authorities[kind] else None
    }
  }

  const PLAIN_MINT: MintExt := MintExt(map[], None, None, None, false, false, None)

  datatype Mint = Mint(
    authority: Option<Pubkey>,
    supply: u64,
    decimals: u8,
    freezeAuthority: Option<Pubkey>,
    ext: MintExt)
  {
    function PermanentDelegate(): Option<Pubkey> {
      ext.Authority(AuthorityType.PermanentDelegate)
    }

    function Withheld(): u64 {
      if ext.fee.Some? then ext.fee.value.withheld else 0
    }
  }

  /** The fixed array of signer keys in a multisignature account. */
  type SignerSlots = s: seq<Pubkey> | |s| == MAX_SIGNERS witness seq(MAX_SIGNERS, _ => 0)

  /** What the bytes of an account hold. `Blank` is all zeroes; the staged forms carry
      extensions written before the base state was initialized. */
  datatype Data =
    | Blank(len: nat)
    | StagedMint(len: nat, mintExt: MintExt)
    | StagedAccount(len: nat, accountExt: AccountExt)
    | MintData(len: nat, mint: Mint)
    | AccountData(len: nat, account: Account)
    | MultisigData(m: u8, n: u8, signers: SignerSlots)
  {
    function Length(): nat {
      if MultisigData? then MULTISIG_LEN else len
    }
  }

  datatype Cell = Cell(lamports: u64, owner: Pubkey, data: Data)

  const EMPTY: Cell := Cell(0, SYSTEM_PROGRAM, Blank(0))

  /** Keys without an entry hold no lamports and no data. */
  type Ledger = map<Pubkey, Cell>

  function At(l: Ledger, k: Pubkey): Cell {
    if k in l then l[k] else EMPTY
  }

  /** Cells of the token program: only these count as token state. */
  predicate Ours(c: Cell) {
    c.owner == TOKEN_PROGRAM
  }

  predicate IsOpen(l: Ledger, k: Pubkey) {
    Ours(At(l, k)) && At(l, k).data.AccountData?
  }

  function AccountAt(l: Ledger, k: Pubkey): Account
    requires IsOpen(l, k)
  {
    At(l, k).data.account
  }

  predicate IsLive(l: Ledger, m: Pubkey) {
    Ours(At(l, m)) && At(l, m).data.MintData?
  }

  function MintAt(l: Ledger, m: Pubkey): Mint
    requires IsLive(l, m)
  {
    At(l, m).data.mint
  }

  /** Unpacking as a token account; the owner of the cell is not looked at. */
  function UnpackAccount(d: Data): Result<Account> {
    if d.Length() == MULTISIG_LEN || d.Length() < ACCOUNT_LEN then Err(InvalidAccountData)
    else match d
      case AccountData(_, a) => Ok(a)
      case MintData(_, _) => Err(InvalidAccountData)
      case _ => Err(UninitializedAccount)
  }

  function UnpackMint(d: Data): Result<Mint> {
    if d.Length() == MULTISIG_LEN || d.Length() < MINT_LEN then Err(InvalidAccountData)
    else match d
      case MintData(_, m) => Ok(m)
      case AccountData(_, _) => Err(InvalidAccountData)
      case _ => Err(UninitializedAccount)
  }

  /** `unpack_uninitialized` for a mint: the extensions staged so far. */
  function UnpackUninitializedMint(d: Data): Result<MintExt> {
    if d.Length() == MULTISIG_LEN || d.Length() < MINT_LEN
       || MINT_LEN < d.Length() <= ACCOUNT_LEN
    then Err(InvalidAccountData)
    else match d
      case Blank(_) => Ok(PLAIN_MINT)
      case StagedMint(_, ext) => Ok(ext)
      case StagedAccount(_, _) => Err(ExtensionBaseMismatch)
      case MintData(_, _) => Err(AlreadyInUse)
      case _ => Err(InvalidAccountData)
  }

  function UnpackUninitializedAccount(d: Data): Result<AccountExt> {
    if d.Length() == MULTISIG_LEN || d.Length() < ACCOUNT_LEN then Err(InvalidAccountData)
    else match d
      case Blank(_) => Ok(PLAIN_ACCOUNT)
      case StagedAccount(_, ext) => Ok(ext)
      case StagedMint(_, _) => Err(ExtensionBaseMismatch)
      case AccountData(_, _) => Err(AlreadyInUse)
      case _ => Err(InvalidAccountData)
  }

  /** Writing new data in place: lamports and owner stay. */
  function WithData(l: Ledger, k: Pubkey, d: Data): Ledger {
    l[k := At(l, k).(data := d)]
  }

  function WithAccount(l: Ledger, k: Pubkey, a: Account): Ledger {
    WithData(l, k, AccountData(At(l, k).data.Length(), a))
  }

  function WithMint(l: Ledger, k: Pubkey, m: Mint): Ledger {
    WithData(l, k, MintData(At(l, k).data.Length(), m))
  }

  function WithLamports(l: Ledger, k: Pubkey, n: u64): Ledger {
    l[k := At(l, k).(lamports := n)]
  }

  /** The fee schedule of a transfer: basis points rounded up, capped, `None` if it leaves u64. */
  function CalculateFee(fee: TransferFee, amount: u64): Option<u64> {
    if fee.basisPoints == 0 || amount == 0 then Some(0)
    else
      var raw := (amount * fee.basisPoints + 10_000 - 1) / 10_000;
      if raw > U64_MAX then None
      else Some(if raw <= fee.maximumFee then raw else fee.maximumFee)
  }

  function EpochFee(config: FeeConfig, epoch: u64, amount: u64): Option<u64> {
    CalculateFee(if epoch >= config.newer.epoch then config.newer else config.older, amount)
  }

  /** With at most 100% configured, a fee exists and never exceeds the amount. */
  lemma FeeAtMostAmount(config: FeeConfig, epoch: u64, amount: u64)
    requires config.older.basisPoints <= 10_000 && config.newer.basisPoints <= 10_000
    ensures EpochFee(config, epoch, amount).Some? && EpochFee(config, epoch, amount).value <= amount
  {
    var bp := if epoch >= config.newer.epoch then config.newer.basisPoints else config.older.basisPoints;
    ShareAtMostAmount(amount, bp);
  }

  lemma ShareAtMostAmount(amount: nat, basisPoints: nat)
    requires basisPoints <= 10_000
    ensures (amount * basisPoints + 10_000 - 1) / 10_000 <= amount
  {
    var product := amount * basisPoints;
    assert product <= amount * 10_000;
    assert (product + 10_000 - 1) / 10_000 <= amount;
  }
}
