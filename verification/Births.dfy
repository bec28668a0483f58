/** Exactly when mints and accounts are staged and initialized, and exactly what is then stored. */
module Births {
  import opened Prelude
  import opened Ledger
  import opened Multisig
  import opened H = Handlers
  import opened X = Extensions

  // ------------------------------------------------------------ staging

  /** An account that holds no mint yet, and what has been staged in it. */
  predicate AwaitsMint(d: Data) {
    (d.Blank? || d.StagedMint?) && d.len != 355 && (d.len == 82 || d.len > 165)
  }

  function StagedForMint(d: Data): MintExt {
    if d.StagedMint? then d.mintExt else PLAIN_MINT
  }

  predicate AwaitsAccount(d: Data) {
    (d.Blank? || d.StagedAccount?) && d.len != 355 && d.len >= 165
  }

  function StagedForAccount(d: Data): AccountExt {
    if d.StagedAccount? then d.accountExt else PLAIN_ACCOUNT
  }

  /** How the handlers read bytes: an account takes 165 of them or more, a mint 82 or more, and 355
      make a multisignature of either. */
  lemma UnpackSucceedsExactly(d: Data)
    ensures UnpackAccount(d).Ok? <==> d.AccountData? && d.len >= 165 && d.len != 355
    ensures UnpackMint(d).Ok? <==> d.MintData? && d.len >= 82 && d.len != 355
    ensures UnpackUninitializedAccount(d).Ok? <==> AwaitsAccount(d)
    ensures UnpackUninitializedMint(d).Ok? <==> AwaitsMint(d)
    ensures UnpackAccount(d).Ok? ==> UnpackAccount(d).value == d.account
    ensures UnpackMint(d).Ok? ==> UnpackMint(d).value == d.mint
  {
  }

  /** A key that an optional key field can hold. */
  predicate Storable(key: Option<Pubkey>) {
    key != Some(0)
  }

  predicate MayStage(s: Staging) {
    match s
    case StageCloseAuthority(key) => Storable(key)
    case StagePermanentDelegate(key) => key != 0
    case StageNonTransferable => true
    case StageFee(config, withdraw, bp, _) => Storable(config) && Storable(withdraw) && bp <= 10_000
    case StagePausable(key) => key != 0
    case StageHook(key, program) => Storable(key) && Storable(program)
    case StageDefaultState(_) => true
    case StageOther(kind, key) =>
      && Storable(key)
      && kind !in {MintTokens, FreezeAccount, AccountOwner, AuthorityType.CloseAccount, TransferFeeConfig,
                   WithheldWithdraw, CloseMint, AuthorityType.PermanentDelegate, TransferHookProgramId, Pause}
  }

  /** The authorities that the staging gives a mint. */
  function Appointed(s: Staging): map<AuthorityType, Option<Pubkey>> {
    match s
    case StageCloseAuthority(key) => map[CloseMint := key]
    case StagePermanentDelegate(key) => map[AuthorityType.PermanentDelegate := Some(key)]
    case StageFee(config, withdraw, _, _) => map[TransferFeeConfig := config, WithheldWithdraw := withdraw]
    case StagePausable(key) => map[Pause := Some(key)]
    case StageHook(key, _) => map[TransferHookProgramId := key]
    case StageOther(kind, key) => map[kind := key]
    case _ => map[]
  }

  /** What is staged afterwards: the named authorities appointed, a fee running from this epoch on in
      both schedules, a pausable mint unpaused, and all else as it was. */
  function Staged(before: MintExt, s: Staging, epoch: u64): MintExt {
    MintExt(
      before.authorities + Appointed(s),
      if s.StageFee?
      then Some(FeeConfig(TransferFee(epoch, s.maximumFee, s.basisPoints),
                          TransferFee(epoch, s.maximumFee, s.basisPoints), 0))
      else before.fee,
      if s.StagePausable? then Some(false) else before.paused,
      if s.StageHook? then Some(s.program) else before.hook,
      before.nonTransferable || s.StageNonTransferable?,
      before.confidentialMintBurn,
      if s.StageDefaultState? then Some(s.frozen) else before.defaultFrozen)
  }

  lemma OtherKinds(kind: AuthorityType)
    ensures kind in {InterestRate, ConfidentialTransferMint, ConfidentialTransferFeeConfig, MetadataPointer,
                     GroupPointer, GroupMemberPointer, ScaledUiAmount}
       <==> kind !in {MintTokens, FreezeAccount, AccountOwner, AuthorityType.CloseAccount, TransferFeeConfig,
                      WithheldWithdraw, CloseMint, AuthorityType.PermanentDelegate, TransferHookProgramId, Pause}
  {
    match kind {
      case MintTokens =>
      case InterestRate =>
      case ConfidentialTransferMint =>
      case ConfidentialTransferFeeConfig =>
      case MetadataPointer =>
      case GroupPointer =>
      case GroupMemberPointer =>
      case ScaledUiAmount =>
      case _ =>
    }
  }

  lemma ApplySucceedsExactly(ext: MintExt, s: Staging, epoch: u64)
    ensures X.ApplyStaging(ext, s, epoch).Ok? <==> MayStage(s)
    ensures MayStage(s) ==> X.ApplyStaging(ext, s, epoch) == Ok(Staged(ext, s, epoch))
  {
    match s {
      case StageCloseAuthority(key) => assert ext.authorities + Appointed(s) == ext.authorities[CloseMint := key];
      case StagePermanentDelegate(key) =>
        assert ext.authorities + Appointed(s) == ext.authorities[AuthorityType.PermanentDelegate := Some(key)];
      case StageFee(config, withdraw, _, _) =>
        assert ext.authorities + Appointed(s)
            == ext.authorities[TransferFeeConfig := config][WithheldWithdraw := withdraw];
      case StagePausable(key) => assert ext.authorities + Appointed(s) == ext.authorities[Pause := Some(key)];
      case StageHook(key, _) => assert ext.authorities + Appointed(s) == ext.authorities[TransferHookProgramId := key];
      case StageOther(kind, key) =>
        assert ext.authorities + Appointed(s) == ext.authorities[kind := key];
        OtherKinds(kind);
      case _ => assert ext.authorities + Appointed(s) == ext.authorities;
    }
  }

  /** Staging a mint extension succeeds exactly on an account that awaits a mint and has room, with
      keys other than zero and at most 100% of fee. */
  lemma StageMintSucceedsExactly(l: Ledger, metas: seq<Meta>, s: Staging, env: Env)
    ensures X.StageMint(l, metas, s, env).Ok?
       <==> && |metas| >= 1 && AwaitsMint(At(l, metas[0].key).data) && At(l, metas[0].key).data.len > 165
            && env.room && MayStage(s)
    ensures X.StageMint(l, metas, s, env).Ok? ==>
              var k := metas[0].key;
              var after := Staged(StagedForMint(At(l, k).data), s, env.epoch);
              X.StageMint(l, metas, s, env).value == WithData(l, k, Data.StagedMint(At(l, k).data.len, after))
  {
    if |metas| >= 1 && AwaitsMint(At(l, metas[0].key).data) {
      ApplySucceedsExactly(StagedForMint(At(l, metas[0].key).data), s, env.epoch);
      hide X.ApplyStaging, Staged, MayStage;
    }
  }

  lemma StageOwnerSucceedsExactly(l: Ledger, metas: seq<Meta>, env: Env)
    ensures X.StageImmutableOwner(l, metas, env).Ok?
       <==> && |metas| >= 1 && AwaitsAccount(At(l, metas[0].key).data) && At(l, metas[0].key).data.len > 165
            && env.room
    ensures X.StageImmutableOwner(l, metas, env).Ok? ==>
              var k := metas[0].key;
              var before := StagedForAccount(At(l, k).data);
              X.StageImmutableOwner(l, metas, env).value
                == WithData(l, k, StagedAccount(At(l, k).data.len, before.(immutableOwner := true)))
  {
  }

  // ------------------------------------------------------------ mints

  /** Confidential transfers and transfer fees come with their combination or not together;
      confidential supply needs confidential transfers; two ways to scale amounts exclude each other. */
  predicate Combinable(ext: MintExt) {
    var carries := ext.authorities.Keys;
    && (ConfidentialTransferFeeConfig in carries <==> ConfidentialTransferMint in carries && ext.fee.Some?)
    && (ext.confidentialMintBurn ==> ConfidentialTransferMint in carries)
    && !(InterestRate in carries && ScaledUiAmount in carries)
  }

  predicate MayBecomeMint(l: Ledger, metas: seq<Meta>, freezeAuthority: Option<Pubkey>, rentAccount: bool, env: Env) {
    && |metas| >= (if rentAccount then 2 else 1)
    && var c := At(l, metas[0].key);
       && AwaitsMint(c.data) && env.rent(c.data.len) <= c.lamports && env.room
       && Combinable(StagedForMint(c.data))
       && (StagedForMint(c.data).defaultFrozen == Some(true) ==> freezeAuthority.Some?)
  }

  /** A mint is initialized exactly under these conditions; it then has the given authorities and
      decimals, no supply, and all that was staged. */
  lemma MintSucceedsExactly(l: Ledger, metas: seq<Meta>, decimals: u8, authority: Pubkey,
                            freezeAuthority: Option<Pubkey>, rentAccount: bool, env: Env)
    ensures H.InitializeMint(l, metas, decimals, authority, freezeAuthority, rentAccount, env).Ok?
       <==> MayBecomeMint(l, metas, freezeAuthority, rentAccount, env)
    ensures MayBecomeMint(l, metas, freezeAuthority, rentAccount, env) ==>
              var k := metas[0].key;
              var mint := Mint(Some(authority), 0, decimals, freezeAuthority, StagedForMint(At(l, k).data));
              H.InitializeMint(l, metas, decimals, authority, freezeAuthority, rentAccount, env)
                == Ok(WithData(l, k, MintData(At(l, k).data.len, mint)))
  {
  }

  // ------------------------------------------------------------ accounts

  /** The mint an account is initialized for: of this program, unlike everything else listed. */
  predicate MayBecomeAccount(l: Ledger, metas: seq<Meta>, givenOwner: Option<Pubkey>, rentAccount: bool, env: Env) {
    && |metas| >= 2 + (if givenOwner.None? then 1 else 0) + (if rentAccount then 1 else 0)
    && var c, m := At(l, metas[0].key), At(l, metas[1].key);
       && AwaitsAccount(c.data) && env.rent(c.data.len) <= c.lamports && env.room
       && IsLive(l, metas[1].key) && 82 <= m.data.len && m.data.len != 355
  }

  /** What a new account carries: the sides of the extensions of its mint, with nothing withheld and
      no transfer going on, and an immutable owner if it was staged or its tokens are bound. */
  function BornWith(staged: AccountExt, mint: MintExt): AccountExt {
    AccountExt(
      if mint.fee.Some? then Some(0) else staged.withheld,
      staged.immutableOwner || mint.nonTransferable,
      staged.nonTransferable || mint.nonTransferable,
      if mint.hook.Some? then Some(false) else staged.hook,
      staged.pausable || mint.paused.Some?,
      staged.cpiGuard, staged.memo, staged.confidential, staged.confidentialFeeClosable)
  }

  /** An account is initialized exactly under these conditions, for the second listed account as its
      mint. Wrapped SOL starts with the lamports above the rent of the account, which is kept as
      reserve; all else starts at zero. */
  lemma AccountSucceedsExactly(l: Ledger, metas: seq<Meta>, givenOwner: Option<Pubkey>, rentAccount: bool, env: Env)
    ensures H.InitializeAccount(l, metas, givenOwner, rentAccount, env).Ok?
       <==> MayBecomeAccount(l, metas, givenOwner, rentAccount, env)
    ensures MayBecomeAccount(l, metas, givenOwner, rentAccount, env) ==>
              var k, m := metas[0].key, metas[1].key;
              var c, mint := At(l, k), MintAt(l, m);
              var wraps := m == NATIVE_MINT;
              var rent := env.rent(c.data.len);
              var account := Account(
                m,
                if givenOwner.Some? then givenOwner.value else metas[2].key,
                if wraps then c.lamports - rent else 0,
                None,
                mint.ext.defaultFrozen == Some(true),
                if wraps then Some(rent) else None,
                0,
                None,
                BornWith(StagedForAccount(c.data), mint.ext));
              H.InitializeAccount(l, metas, givenOwner, rentAccount, env)
                == Ok(WithData(l, k, AccountData(c.data.len, account)))
  {
  }
}
