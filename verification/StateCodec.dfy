/** Packing the base state of mints, accounts and multisignatures, and the readers of it. */
module StateCodec {
  import opened Prelude
  import opened Bytes
  import opened Ledger

  datatype AccountState = Uninitialized | Initialized | Frozen

  datatype MintRecord = MintRecord(
    authority: Option<Pubkey>,
    supply: u64,
    decimals: u8,
    initialized: bool,
    freezeAuthority: Option<Pubkey>)

  datatype AccountRecord = AccountRecord(
    mint: Pubkey,
    owner: Pubkey,
    amount: u64,
    delegate: Option<Pubkey>,
    state: AccountState,
    native: Option<u64>,
    delegatedAmount: u64,
    closeAuthority: Option<Pubkey>)

  datatype MultisigRecord = MultisigRecord(m: u8, n: u8, initialized: bool, signers: SignerSlots)

  const NONE_TAG: seq<u8> := [0, 0, 0, 0]
  const SOME_TAG: seq<u8> := [1, 0, 0, 0]

  // Optional fields

  /** A packed option: an absent value leaves whatever body was there before. */
  function KeyOptionBytes(src: Option<Pubkey>, stale: seq<u8>): (b: seq<u8>)
    requires |stale| == 32
    ensures |b| == 36
  {
    match src
    case Some(key) => SOME_TAG + KeyBytes(key)
    case None => NONE_TAG + stale
  }

  function U64OptionBytes(src: Option<u64>, stale: seq<u8>): (b: seq<u8>)
    requires |stale| == 8
    ensures |b| == 12
  {
    match src
    case Some(amount) => SOME_TAG + U64Bytes(amount)
    case None => NONE_TAG + stale
  }

  lemma NothingWritten(was: seq<u8>)
    ensures Overwritten(was, [], was)
  {
  }

  /** Bytes that are left alone count as written with what they held. */
  lemma SkipStale(now: seq<u8>, done: seq<u8>, count: nat, was: seq<u8>)
    requires Overwritten(now, done, was) && |done| + count <= |was|
    ensures Overwritten(now, done + was[|done|..|done| + count], was)
  {
    assert was[|done|..] == was[|done|..|done| + count] + was[|done| + count..];
  }

  lemma PartOf(now: seq<u8>, done: seq<u8>, part: seq<u8>, was: seq<u8>)
    requires Overwritten(now, done + part, was)
    ensures |now| == |was| && now[|done|..|done| + |part|] == part
  {
  }

  method PackKeyOption(src: Option<Pubkey>, dst: array<u8>, at: nat, ghost done: seq<u8>, ghost was: seq<u8>)
    requires Overwritten(dst[..], done, was) && |done| == at && at + 36 <= |was|
    modifies dst
    ensures Overwritten(dst[..], done + KeyOptionBytes(src, was[at + 4..at + 36]), was)
    ensures KeyOptionAt(dst[..], at, src, was)
  {
    match src {
      case Some(key) =>
        Append(dst, at, SOME_TAG, done, was);
        Append(dst, at + 4, KeyBytes(key), done + SOME_TAG, was);
        assert done + SOME_TAG + KeyBytes(key) == done + (SOME_TAG + KeyBytes(key));
      case None =>
        Append(dst, at, NONE_TAG, done, was);
        SkipStale(dst[..], done + NONE_TAG, 32, was);
        assert done + NONE_TAG + was[at + 4..at + 36] == done + (NONE_TAG + was[at + 4..at + 36]);
    }
    PartOf(dst[..], done, KeyOptionBytes(src, was[at + 4..at + 36]), was);
    KeyOptionPlaced(dst[..], at, src, was);
  }

  method PackU64Option(src: Option<u64>, dst: array<u8>, at: nat, ghost done: seq<u8>, ghost was: seq<u8>)
    requires Overwritten(dst[..], done, was) && |done| == at && at + 12 <= |was|
    modifies dst
    ensures Overwritten(dst[..], done + U64OptionBytes(src, was[at + 4..at + 12]), was)
    ensures U64OptionAt(dst[..], at, src, was)
  {
    match src {
      case Some(amount) =>
        Append(dst, at, SOME_TAG, done, was);
        Append(dst, at + 4, U64Bytes(amount), done + SOME_TAG, was);
        assert done + SOME_TAG + U64Bytes(amount) == done + (SOME_TAG + U64Bytes(amount));
      case None =>
        Append(dst, at, NONE_TAG, done, was);
        SkipStale(dst[..], done + NONE_TAG, 8, was);
        assert done + NONE_TAG + was[at + 4..at + 12] == done + (NONE_TAG + was[at + 4..at + 12]);
    }
    PartOf(dst[..], done, U64OptionBytes(src, was[at + 4..at + 12]), was);
    U64OptionPlaced(dst[..], at, src, was);
  }

  function UnpackKeyOption(src: seq<u8>): Result<Option<Pubkey>>
    requires |src| == 36
  {
    if src[..4] == NONE_TAG then Ok(None)
    else if src[..4] == SOME_TAG then Ok(Some(ReadKey(src[4..])))
    else Err(InvalidAccountData)
  }

  function UnpackU64Option(src: seq<u8>): Result<Option<u64>>
    requires |src| == 12
  {
    if src[..4] == NONE_TAG then Ok(None)
    else if src[..4] == SOME_TAG then Ok(Some(ReadU64(src[4..])))
    else Err(InvalidAccountData)
  }

  function UnpackBool(b: u8): Result<bool> {
    if b == 0 then Ok(false) else if b == 1 then Ok(true) else Err(InvalidAccountData)
  }

  function BoolByte(b: bool): u8 {
    if b then 1 else 0
  }

  lemma KeyOptionRoundTrip(src: Option<Pubkey>, stale: seq<u8>)
    requires |stale| == 32
    ensures UnpackKeyOption(KeyOptionBytes(src, stale)) == Ok(src)
  {
    var b := KeyOptionBytes(src, stale);
    assert b[..4] == if src.Some? then SOME_TAG else NONE_TAG;
    assert b[4..] == if src.Some? then KeyBytes(src.value) else stale;
  }

  lemma U64OptionRoundTrip(src: Option<u64>, stale: seq<u8>)
    requires |stale| == 8
    ensures UnpackU64Option(U64OptionBytes(src, stale)) == Ok(src)
  {
    var b := U64OptionBytes(src, stale);
    assert b[..4] == if src.Some? then SOME_TAG else NONE_TAG;
    assert b[4..] == if src.Some? then U64Bytes(src.value) else stale;
  }

  // Mints

  /** The packed mint over a buffer that held `stale`. */
  function MintBytes(mint: MintRecord, stale: seq<u8>): (b: seq<u8>)
    requires |stale| >= MINT_LEN
    ensures |b| == MINT_LEN
  {
    KeyOptionBytes(mint.authority, stale[4..36])
    + U64Bytes(mint.supply)
    + [mint.decimals]
    + [BoolByte(mint.initialized)]
    + KeyOptionBytes(mint.freezeAuthority, stale[50..82])
  }

  lemma MintPieces(mint: MintRecord, stale: seq<u8>)
    requires |stale| >= MINT_LEN
    ensures MintBytes(mint, stale)
         == KeyOptionBytes(mint.authority, stale[4..36]) + U64Bytes(mint.supply) + [mint.decimals]
            + [BoolByte(mint.initialized)] + KeyOptionBytes(mint.freezeAuthority, stale[50..82])
  {
  }

  method PackMint(mint: MintRecord, dst: array<u8>)
    requires dst.Length >= MINT_LEN
    modifies dst
    ensures Overwritten(dst[..], MintBytes(mint, old(dst[..])), old(dst[..]))
    ensures UnpackMint(dst[..]) == Ok(mint) && MintLaidOut(dst[..], mint, old(dst[..]))
  {
    hide LeValue, LeBytes, Power256, KeyBytes, U64Bytes, KeyOptionBytes, U64OptionBytes, Overwritten,
         UnpackMint, UnpackAccount, MintBytes, MintLaidOut, KeyOptionAt;
    ghost var was := dst[..];
    ghost var done: seq<u8> := [];
    assert Overwritten(dst[..], done, was) by {
      NothingWritten(was);
    }
    PackKeyOption(mint.authority, dst, 0, done, was);
    assert done + KeyOptionBytes(mint.authority, was[4..36]) == KeyOptionBytes(mint.authority, was[4..36]);
    done := KeyOptionBytes(mint.authority, was[4..36]);
    Append(dst, 36, U64Bytes(mint.supply), done, was);
    done := done + U64Bytes(mint.supply);
    Append(dst, 44, [mint.decimals], done, was);
    done := done + [mint.decimals];
    Append(dst, 45, [BoolByte(mint.initialized)], done, was);
    done := done + [BoolByte(mint.initialized)];
    PackKeyOption(mint.freezeAuthority, dst, 46, done, was);
    MintPieces(mint, was);
    MintWritten(mint, dst[..], was);
  }

  function UnpackMint(src: seq<u8>): Result<MintRecord>
    requires |src| >= MINT_LEN
  {
    var authority :- UnpackKeyOption(src[0..36]);
    var initialized :- UnpackBool(src[45]);
    var freezeAuthority :- UnpackKeyOption(src[46..82]);
    Ok(MintRecord(authority, ReadU64(src[36..44]), src[44], initialized, freezeAuthority))
  }

  /** Where the fields of a packed mint lie. */
  lemma MintFields(mint: MintRecord, stale: seq<u8>, rest: seq<u8>)
    requires |stale| >= MINT_LEN
    ensures var src := MintBytes(mint, stale) + rest;
            && src[0..36] == KeyOptionBytes(mint.authority, stale[4..36])
            && src[36..44] == U64Bytes(mint.supply)
            && src[44] == mint.decimals && src[45] == BoolByte(mint.initialized)
            && src[46..82] == KeyOptionBytes(mint.freezeAuthority, stale[50..82])
  {
    hide LeValue, LeBytes, Power256, KeyBytes, U64Bytes, KeyOptionBytes;
  }

  /** Unpacking what was packed over any old bytes returns the mint. */
  lemma MintRoundTrip(mint: MintRecord, stale: seq<u8>, rest: seq<u8>)
    requires |stale| >= MINT_LEN
    ensures UnpackMint(MintBytes(mint, stale) + rest) == Ok(mint)
  {
    var src := MintBytes(mint, stale) + rest;
    KeyOptionRoundTrip(mint.authority, stale[4..36]);
    KeyOptionRoundTrip(mint.freezeAuthority, stale[50..82]);
    MintFields(mint, stale, rest);
    hide MintBytes;
  }

  lemma MintWritten(mint: MintRecord, now: seq<u8>, was: seq<u8>)
    requires |was| >= MINT_LEN && Overwritten(now, MintBytes(mint, was), was)
    ensures UnpackMint(now) == Ok(mint) && MintLaidOut(now, mint, was)
  {
    MintRoundTrip(mint, was, was[MINT_LEN..]);
    MintLayout(mint, was, was[MINT_LEN..]);
  }

  // Accounts

  function StateByte(state: AccountState): u8 {
    match state
    case Uninitialized => 0
    case Initialized => 1
    case Frozen => 2
  }

  function UnpackState(b: u8): Result<AccountState> {
    match b
    case 0 => Ok(Uninitialized)
    case 1 => Ok(Initialized)
    case 2 => Ok(Frozen)
    case _ => Err(InvalidAccountData)
  }

  function AccountBytes(account: AccountRecord, stale: seq<u8>): (b: seq<u8>)
    requires |stale| >= ACCOUNT_LEN
    ensures |b| == ACCOUNT_LEN
  {
    KeyBytes(account.mint)
    + KeyBytes(account.owner)
    + U64Bytes(account.amount)
    + KeyOptionBytes(account.delegate, stale[76..108])
    + [StateByte(account.state)]
    + U64OptionBytes(account.native, stale[113..121])
    + U64Bytes(account.delegatedAmount)
    + KeyOptionBytes(account.closeAuthority, stale[133..165])
  }

  lemma AccountPieces(account: AccountRecord, stale: seq<u8>)
    requires |stale| >= ACCOUNT_LEN
    ensures AccountBytes(account, stale)
         == KeyBytes(account.mint) + KeyBytes(account.owner) + U64Bytes(account.amount)
            + KeyOptionBytes(account.delegate, stale[76..108]) + [StateByte(account.state)]
            + U64OptionBytes(account.native, stale[113..121]) + U64Bytes(account.delegatedAmount)
            + KeyOptionBytes(account.closeAuthority, stale[133..165])
  {
  }

  method PackAccount(account: AccountRecord, dst: array<u8>)
    requires dst.Length >= ACCOUNT_LEN
    modifies dst
    ensures Overwritten(dst[..], AccountBytes(account, old(dst[..])), old(dst[..]))
    ensures UnpackAccount(dst[..]) == Ok(account) && AccountLaidOut(dst[..], account, old(dst[..]))
  {
    hide LeValue, LeBytes, Power256, KeyBytes, U64Bytes, KeyOptionBytes, U64OptionBytes, Overwritten,
         UnpackMint, UnpackAccount, AccountBytes, AccountLaidOut, KeyOptionAt, U64OptionAt;
    ghost var was := dst[..];
    ghost var done: seq<u8> := [];
    assert Overwritten(dst[..], done, was) by {
      NothingWritten(was);
    }
    Append(dst, 0, KeyBytes(account.mint), done, was);
    assert done + KeyBytes(account.mint) == KeyBytes(account.mint);
    done := KeyBytes(account.mint);
    Append(dst, 32, KeyBytes(account.owner), done, was);
    done := done + KeyBytes(account.owner);
    assert |done| == 64;
    Append(dst, 64, U64Bytes(account.amount), done, was);
    done := done + U64Bytes(account.amount);
    assert |done| == 72;
    PackKeyOption(account.delegate, dst, 72, done, was);
    done := done + KeyOptionBytes(account.delegate, was[76..108]);
    assert |done| == 108;
    Append(dst, 108, [StateByte(account.state)], done, was);
    done := done + [StateByte(account.state)];
    assert |done| == 109;
    PackU64Option(account.native, dst, 109, done, was);
    done := done + U64OptionBytes(account.native, was[113..121]);
    assert |done| == 121;
    Append(dst, 121, U64Bytes(account.delegatedAmount), done, was);
    done := done + U64Bytes(account.delegatedAmount);
    assert |done| == 129;
    PackKeyOption(account.closeAuthority, dst, 129, done, was);
    AccountPieces(account, was);
    AccountWritten(account, dst[..], was);
  }

  function UnpackAccount(src: seq<u8>): Result<AccountRecord>
    requires |src| >= ACCOUNT_LEN
  {
    var delegate :- UnpackKeyOption(src[72..108]);
    var state :- UnpackState(src[108]);
    var native :- UnpackU64Option(src[109..121]);
    var closeAuthority :- UnpackKeyOption(src[129..165]);
    Ok(AccountRecord(
         ReadKey(src[0..32]), ReadKey(src[32..64]), ReadU64(src[64..72]), delegate, state, native,
         ReadU64(src[121..129]), closeAuthority))
  }

  /** Where the fields of a packed account lie. */
  lemma AccountFields(account: AccountRecord, stale: seq<u8>, rest: seq<u8>)
    requires |stale| >= ACCOUNT_LEN
    ensures var src := AccountBytes(account, stale) + rest;
            && src[0..32] == KeyBytes(account.mint)
            && src[32..64] == KeyBytes(account.owner)
            && src[64..72] == U64Bytes(account.amount)
            && src[72..108] == KeyOptionBytes(account.delegate, stale[76..108])
            && src[108] == StateByte(account.state)
            && src[109..121] == U64OptionBytes(account.native, stale[113..121])
            && src[121..129] == U64Bytes(account.delegatedAmount)
            && src[129..165] == KeyOptionBytes(account.closeAuthority, stale[133..165])
  {
    hide LeValue, LeBytes, Power256, KeyBytes, U64Bytes, KeyOptionBytes, U64OptionBytes;
  }

  lemma AccountRoundTrip(account: AccountRecord, stale: seq<u8>, rest: seq<u8>)
    requires |stale| >= ACCOUNT_LEN
    ensures UnpackAccount(AccountBytes(account, stale) + rest) == Ok(account)
  {
    hide LeValue, LeBytes, Power256, KeyBytes, U64Bytes, KeyOptionBytes, U64OptionBytes,
         UnpackKeyOption, UnpackU64Option;
    var src := AccountBytes(account, stale) + rest;
    KeyOptionRoundTrip(account.delegate, stale[76..108]);
    U64OptionRoundTrip(account.native, stale[113..121]);
    KeyOptionRoundTrip(account.closeAuthority, stale[133..165]);
    AccountFields(account, stale, rest);
    hide AccountBytes;
  }

  lemma AccountWritten(account: AccountRecord, now: seq<u8>, was: seq<u8>)
    requires |was| >= ACCOUNT_LEN && Overwritten(now, AccountBytes(account, was), was)
    ensures UnpackAccount(now) == Ok(account) && AccountLaidOut(now, account, was)
  {
    AccountRoundTrip(account, was, was[ACCOUNT_LEN..]);
    AccountLayout(account, was, was[ACCOUNT_LEN..]);
  }

  // The layout, byte by byte

  /** An optional key of 36 bytes: tag 1 and the key, or tag 0 and what was there before. */
  predicate KeyOptionAt(b: seq<u8>, at: nat, option: Option<Pubkey>, was: seq<u8>)
    requires at + 36 <= |b| && at + 36 <= |was|
  {
    && b[at] == (if option.Some? then 1 else 0) && b[at + 1] == 0 && b[at + 2] == 0 && b[at + 3] == 0
    && b[at + 4..at + 36] == if option.Some? then KeyBytes(option.value) else was[at + 4..at + 36]
  }

  /** An optional number of 12 bytes, likewise. */
  predicate U64OptionAt(b: seq<u8>, at: nat, option: Option<u64>, was: seq<u8>)
    requires at + 12 <= |b| && at + 12 <= |was|
  {
    && b[at] == (if option.Some? then 1 else 0) && b[at + 1] == 0 && b[at + 2] == 0 && b[at + 3] == 0
    && (option.Some? ==> Spells64(b[at + 4..at + 12], option.value))
    && (option.None? ==> b[at + 4..at + 12] == was[at + 4..at + 12])
  }

  /** A mint in 82 bytes: authority, supply, decimals, initialized, freeze authority. */
  predicate MintLaidOut(b: seq<u8>, mint: MintRecord, was: seq<u8>) {
    && |b| >= 82 && |was| >= 82
    && KeyOptionAt(b, 0, mint.authority, was)
    && Spells64(b[36..44], mint.supply)
    && b[44] == mint.decimals
    && b[45] == (if mint.initialized then 1 else 0)
    && KeyOptionAt(b, 46, mint.freezeAuthority, was)
  }

  /** An account in 165 bytes: mint, owner, amount, delegate, state, reserve, allowance, close authority. */
  predicate AccountLaidOut(b: seq<u8>, a: AccountRecord, was: seq<u8>) {
    && |b| >= 165 && |was| >= 165
    && b[0..32] == KeyBytes(a.mint) && b[32..64] == KeyBytes(a.owner)
    && Spells64(b[64..72], a.amount)
    && KeyOptionAt(b, 72, a.delegate, was)
    && b[108] == (if a.state == Uninitialized then 0 else if a.state == Initialized then 1 else 2)
    && U64OptionAt(b, 109, a.native, was)
    && Spells64(b[121..129], a.delegatedAmount)
    && KeyOptionAt(b, 129, a.closeAuthority, was)
  }

  lemma KeyOptionLayout(option: Option<Pubkey>, stale: seq<u8>)
    requires |stale| == 32
    ensures var b := KeyOptionBytes(option, stale);
            && b[0] == (if option.Some? then 1 else 0) && b[1] == b[2] == b[3] == 0
            && b[4..36] == if option.Some? then KeyBytes(option.value) else stale
  {
    hide LeValue, LeBytes, Power256, KeyBytes;
    if option.Some? {
      assert KeyOptionBytes(option, stale)[4..36] == KeyBytes(option.value);
    } else {
      assert KeyOptionBytes(option, stale)[4..36] == stale;
    }
  }

  lemma U64OptionLayout(option: Option<u64>, stale: seq<u8>)
    requires |stale| == 8
    ensures var b := U64OptionBytes(option, stale);
            && b[0] == (if option.Some? then 1 else 0) && b[1] == b[2] == b[3] == 0
            && (option.Some? ==> Spells64(b[4..12], option.value))
            && (option.None? ==> b[4..12] == stale)
  {
    var b := U64OptionBytes(option, stale);
    if option.Some? {
      U64BytesSpell(option.value);
      hide U64Bytes;
      assert b[4..12] == U64Bytes(option.value);
    }
  }

  lemma KeyOptionPlaced(b: seq<u8>, at: nat, option: Option<Pubkey>, was: seq<u8>)
    requires at + 36 <= |b| && at + 36 <= |was|
    requires b[at..at + 36] == KeyOptionBytes(option, was[at + 4..at + 36])
    ensures KeyOptionAt(b, at, option, was)
  {
    KeyOptionLayout(option, was[at + 4..at + 36]);
    hide KeyOptionBytes, KeyBytes;
    var part := b[at..at + 36];
    assert part[0] == b[at] && part[1] == b[at + 1] && part[2] == b[at + 2] && part[3] == b[at + 3];
    assert part[4..36] == b[at + 4..at + 36];
  }

  lemma U64OptionPlaced(b: seq<u8>, at: nat, option: Option<u64>, was: seq<u8>)
    requires at + 12 <= |b| && at + 12 <= |was|
    requires b[at..at + 12] == U64OptionBytes(option, was[at + 4..at + 12])
    ensures U64OptionAt(b, at, option, was)
  {
    U64OptionLayout(option, was[at + 4..at + 12]);
    hide U64OptionBytes, U64Bytes, Spells64;
    var part := b[at..at + 12];
    assert part[0] == b[at] && part[1] == b[at + 1] && part[2] == b[at + 2] && part[3] == b[at + 3];
    assert part[4..12] == b[at + 4..at + 12];
  }

  /** What the packer writes is a mint laid out so. */
  lemma MintLayout(mint: MintRecord, stale: seq<u8>, rest: seq<u8>)
    requires |stale| >= MINT_LEN
    ensures MintLaidOut(MintBytes(mint, stale) + rest, mint, stale)
  {
    var b := MintBytes(mint, stale) + rest;
    hide LeValue, LeBytes, Power256, KeyBytes, U64Bytes, KeyOptionBytes, Spells64, KeyOptionAt;
    MintFields(mint, stale, rest);
    hide MintBytes;
    KeyOptionPlaced(b, 0, mint.authority, stale);
    KeyOptionPlaced(b, 46, mint.freezeAuthority, stale);
    U64BytesSpell(mint.supply);
  }

  lemma StateNumbers(state: AccountState)
    ensures StateByte(state) == if state == Uninitialized then 0 else if state == Initialized then 1 else 2
  {
  }

  lemma AccountLayout(account: AccountRecord, stale: seq<u8>, rest: seq<u8>)
    requires |stale| >= ACCOUNT_LEN
    ensures AccountLaidOut(AccountBytes(account, stale) + rest, account, stale)
  {
    var b := AccountBytes(account, stale) + rest;
    hide LeValue, LeBytes, Power256, KeyBytes, U64Bytes, KeyOptionBytes, U64OptionBytes, Spells64, KeyOptionAt,
         U64OptionAt;
    AccountFields(account, stale, rest);
    hide AccountBytes, StateByte;
    assert b[108] == if account.state == Uninitialized then 0 else if account.state == Initialized then 1 else 2 by {
      StateNumbers(account.state);
    }
    KeyOptionPlaced(b, 72, account.delegate, stale);
    U64OptionPlaced(b, 109, account.native, stale);
    KeyOptionPlaced(b, 129, account.closeAuthority, stale);
    U64BytesSpell(account.amount);
    U64BytesSpell(account.delegatedAmount);
  }

  /** The tag of an optional field is well-formed. */
  predicate TagAt(b: seq<u8>, at: nat)
    requires at + 4 <= |b|
  {
    b[at] <= 1 && b[at + 1] == 0 && b[at + 2] == 0 && b[at + 3] == 0
  }

  lemma KeyOptionReads(src: seq<u8>)
    requires |src| == 36
    ensures UnpackKeyOption(src).Ok? <==> TagAt(src, 0)
    ensures TagAt(src, 0) ==> UnpackKeyOption(src).value.Some? == (src[0] == 1)
  {
    assert src[..4] == [src[0], src[1], src[2], src[3]];
  }

  lemma U64OptionReads(src: seq<u8>)
    requires |src| == 12
    ensures UnpackU64Option(src).Ok? <==> TagAt(src, 0)
    ensures TagAt(src, 0) ==> UnpackU64Option(src).value.Some? == (src[0] == 1)
  {
    assert src[..4] == [src[0], src[1], src[2], src[3]];
  }

  /** Bytes are a mint exactly when both tags are 0 or 1 and so is the initialized byte; and then they
      are laid out as the mint that is read from them. */
  lemma MintReadsExactly(src: seq<u8>)
    requires |src| == 82
    ensures UnpackMint(src).Ok? <==> TagAt(src, 0) && TagAt(src, 46) && src[45] <= 1
    ensures UnpackMint(src).Ok? ==> MintLaidOut(src, UnpackMint(src).value, src)
  {
    KeyOptionReads(src[0..36]);
    KeyOptionReads(src[46..82]);
    if UnpackMint(src).Ok? {
      MintRepack(src);
      MintLayout(UnpackMint(src).value, src, []);
      assert src + [] == src;
    }
  }

  /** Bytes are an account exactly when the three tags are 0 or 1 and the state is 0, 1 or 2. */
  lemma AccountReadsExactly(src: seq<u8>)
    requires |src| == 165
    ensures UnpackAccount(src).Ok? <==> TagAt(src, 72) && TagAt(src, 109) && TagAt(src, 129) && src[108] <= 2
    ensures UnpackAccount(src).Ok? ==> AccountLaidOut(src, UnpackAccount(src).value, src)
  {
    KeyOptionReads(src[72..108]);
    U64OptionReads(src[109..121]);
    KeyOptionReads(src[129..165]);
    if UnpackAccount(src).Ok? {
      hide UnpackKeyOption, UnpackU64Option, AccountLaidOut;
      AccountRepack(src);
      AccountLayout(UnpackAccount(src).value, src, []);
      hide UnpackAccount, AccountBytes;
      assert src + [] == src;
    }
  }

  // Multisignatures

  function SignerBytes(signers: seq<Pubkey>): (b: seq<u8>)
    ensures |b| == 32 * |signers|
  {
    if signers == [] then []
    else SignerBytes(signers[..|signers| - 1]) + KeyBytes(signers[|signers| - 1])
  }

  function MultisigBytes(multisig: MultisigRecord): (b: seq<u8>)
    ensures |b| == MULTISIG_LEN
  {
    [multisig.m, multisig.n, BoolByte(multisig.initialized)] + SignerBytes(multisig.signers)
  }

  method PackMultisig(multisig: MultisigRecord, dst: array<u8>)
    requires dst.Length >= MULTISIG_LEN
    modifies dst
    ensures Overwritten(dst[..], MultisigBytes(multisig), old(dst[..]))
    ensures UnpackedMultisig(dst[..]) == Ok(multisig) && MultisigLaidOut(dst[..], multisig)
  {
    ghost var was := dst[..];
    var head := [multisig.m, multisig.n, BoolByte(multisig.initialized)];
    Append(dst, 0, head, [], was);
    for i := 0 to MAX_SIGNERS
      invariant Overwritten(dst[..], head + SignerBytes(multisig.signers[..i]), was)
    {
      Append(dst, 3 + 32 * i, KeyBytes(multisig.signers[i]), head + SignerBytes(multisig.signers[..i]), was);
      MoreSigners(head, multisig.signers, i);
    }
    assert multisig.signers[..MAX_SIGNERS] == multisig.signers;
    MultisigRoundTrip(multisig, was[MULTISIG_LEN..]);
    MultisigLayout(multisig, was[MULTISIG_LEN..]);
  }

  lemma MoreSigners(head: seq<u8>, signers: seq<Pubkey>, i: nat)
    requires i < |signers|
    ensures head + SignerBytes(signers[..i]) + KeyBytes(signers[i]) == head + SignerBytes(signers[..i + 1])
  {
    assert signers[..i + 1][..i] == signers[..i];
    var front, key := SignerBytes(signers[..i]), KeyBytes(signers[i]);
    assert head + front + key == head + (front + key);
  }

  /** The keys in the first `count` 32-byte chunks. */
  function ReadSigners(flat: seq<u8>, count: nat): (keys: seq<Pubkey>)
    requires 32 * count <= |flat|
    ensures |keys| == count
  {
    seq(count, i requires 0 <= i < count => ReadKey(flat[32 * i..32 * i + 32]))
  }

  method UnpackMultisig(src: seq<u8>) returns (r: Result<MultisigRecord>)
    requires |src| >= MULTISIG_LEN
    ensures r == UnpackedMultisig(src)
  {
    if UnpackBool(src[2]).Err? {
      return Err(InvalidAccountData);
    }
    var flat := src[3..355];
    var signers := new Pubkey[MAX_SIGNERS](_ => 0);
    for i := 0 to MAX_SIGNERS
      invariant signers[..i] == ReadSigners(flat, i)
    {
      signers[i] := ReadKey(flat[32 * i..32 * i + 32]);
    }
    assert signers[..MAX_SIGNERS] == signers[..];
    return Ok(MultisigRecord(src[0], src[1], src[2] == 1, signers[..]));
  }

  function UnpackedMultisig(src: seq<u8>): Result<MultisigRecord>
    requires |src| >= MULTISIG_LEN
  {
    var initialized :- UnpackBool(src[2]);
    Ok(MultisigRecord(src[0], src[1], initialized, ReadSigners(src[3..355], MAX_SIGNERS)))
  }

  lemma {:induction false} SignerAt(signers: seq<Pubkey>, i: nat)
    requires i < |signers|
    ensures SignerBytes(signers)[32 * i..32 * i + 32] == KeyBytes(signers[i])
  {
    hide LeValue, LeBytes, Power256, KeyBytes;
    var last := |signers| - 1;
    if i < last {
      SignerAt(signers[..last], i);
      assert SignerBytes(signers)[32 * i..32 * i + 32] == SignerBytes(signers[..last])[32 * i..32 * i + 32];
    }
  }

  /** A multisignature in 355 bytes: required, stored, initialized, and eleven keys. */
  predicate MultisigLaidOut(b: seq<u8>, multisig: MultisigRecord) {
    && |b| >= 355
    && b[0] == multisig.m && b[1] == multisig.n && b[2] == (if multisig.initialized then 1 else 0)
    && forall i :: 0 <= i < 11 ==> b[3 + 32 * i..35 + 32 * i] == KeyBytes(multisig.signers[i])
  }

  lemma MultisigLayout(multisig: MultisigRecord, rest: seq<u8>)
    ensures MultisigLaidOut(MultisigBytes(multisig) + rest, multisig)
  {
    var b := MultisigBytes(multisig) + rest;
    assert b[3..355] == SignerBytes(multisig.signers);
    hide KeyBytes, SignerBytes, MultisigBytes;
    forall i | 0 <= i < 11 ensures b[3 + 32 * i..35 + 32 * i] == KeyBytes(multisig.signers[i]) {
      SignerAt(multisig.signers, i);
      SliceOfSlice(b, 3, 355, 32 * i, 32 * i + 32);
    }
  }

  lemma SliceOfSlice(b: seq<u8>, from: nat, to: nat, i: nat, j: nat)
    requires from <= to <= |b| && i <= j <= to - from
    ensures b[from..to][i..j] == b[from + i..from + j]
  {
    var whole := b[from..to];
    assert forall k :: i <= k < j ==> whole[k] == b[from + k];
  }

  lemma MultisigReadsExactly(src: seq<u8>)
    requires |src| >= 355
    ensures UnpackedMultisig(src).Ok? <==> src[2] <= 1
    ensures UnpackedMultisig(src).Ok? ==> MultisigLaidOut(src, UnpackedMultisig(src).value)
  {
    if UnpackedMultisig(src).Ok? {
      forall i | 0 <= i < 11 ensures src[3 + 32 * i..35 + 32 * i] == KeyBytes(UnpackedMultisig(src).value.signers[i]) {
        ReadsAreExact(src[3 + 32 * i..35 + 32 * i]);
        SliceOfSlice(src, 3, 355, 32 * i, 32 * i + 32);
      }
    }
  }

  lemma MultisigRoundTrip(multisig: MultisigRecord, rest: seq<u8>)
    ensures UnpackedMultisig(MultisigBytes(multisig) + rest) == Ok(multisig)
  {
    var src := MultisigBytes(multisig) + rest;
    assert src[3..355] == SignerBytes(multisig.signers);
    forall i | 0 <= i < MAX_SIGNERS
      ensures ReadKey(src[3..355][32 * i..32 * i + 32]) == multisig.signers[i]
    {
      SignerAt(multisig.signers, i);
    }
    assert ReadSigners(src[3..355], MAX_SIGNERS) == multisig.signers;
  }

  // Repacking

  lemma KeyOptionRepack(src: seq<u8>)
    requires |src| == 36 && UnpackKeyOption(src).Ok?
    ensures KeyOptionBytes(UnpackKeyOption(src).value, src[4..36]) == src
  {
    ReadsAreExact(src[4..]);
    assert src == src[..4] + src[4..] && src[4..36] == src[4..];
  }

  lemma U64OptionRepack(src: seq<u8>)
    requires |src| == 12 && UnpackU64Option(src).Ok?
    ensures U64OptionBytes(UnpackU64Option(src).value, src[4..12]) == src
  {
    ReadsAreExact(src[4..]);
    assert src == src[..4] + src[4..] && src[4..12] == src[4..];
  }

  /** Packing an unpacked mint back into its own buffer changes no byte. */
  lemma MintRepack(src: seq<u8>)
    requires |src| == MINT_LEN && UnpackMint(src).Ok?
    ensures MintBytes(UnpackMint(src).value, src) == src
  {
    KeyOptionRepack(src[0..36]);
    KeyOptionRepack(src[46..82]);
    ReadsAreExact(src[36..44]);
    hide LeValue, LeBytes, Power256, KeyBytes, U64Bytes, KeyOptionBytes, UnpackKeyOption;
    assert src[0..36][4..36] == src[4..36] && src[46..82][4..36] == src[50..82];
    assert src == src[0..36] + src[36..44] + [src[44]] + [src[45]] + src[46..82];
  }

  lemma AccountRepack(src: seq<u8>)
    requires |src| == ACCOUNT_LEN && UnpackAccount(src).Ok?
    ensures AccountBytes(UnpackAccount(src).value, src) == src
  {
    AccountSlices(src);
    KeyOptionRepack(src[72..108]);
    U64OptionRepack(src[109..121]);
    KeyOptionRepack(src[129..165]);
    ReadsAreExact(src[0..32]);
    ReadsAreExact(src[32..64]);
    ReadsAreExact(src[64..72]);
    ReadsAreExact(src[121..129]);
    hide LeValue, LeBytes, Power256, KeyBytes, U64Bytes, KeyOptionBytes, U64OptionBytes,
         UnpackKeyOption, UnpackU64Option;
  }

  lemma AccountSlices(src: seq<u8>)
    requires |src| == ACCOUNT_LEN
    ensures src[72..108][4..36] == src[76..108]
    ensures src[109..121][4..12] == src[113..121]
    ensures src[129..165][4..36] == src[133..165]
    ensures src == src[0..32] + src[32..64] + src[64..72] + src[72..108] + [src[108]]
                   + src[109..121] + src[121..129] + src[129..165]
  {
  }

  // The readers of single fields

  const STATE_INDEX: nat := 108
  const ACCOUNT_TYPE_ACCOUNT: u8 := 2

  predicate IsInitializedAccount(data: seq<u8>) {
    |data| > STATE_INDEX && data[STATE_INDEX] != 0
  }

  predicate ValidAccountData(data: seq<u8>) {
    || (|data| == ACCOUNT_LEN && IsInitializedAccount(data))
    || (&& |data| > ACCOUNT_LEN
        && |data| != MULTISIG_LEN
        && data[ACCOUNT_LEN] == ACCOUNT_TYPE_ACCOUNT
        && IsInitializedAccount(data))
  }

  function UnpackAccountOwner(data: seq<u8>): Option<Pubkey> {
    if ValidAccountData(data) then Some(ReadKey(data[32..64])) else None
  }

  function UnpackAccountMint(data: seq<u8>): Option<Pubkey> {
    if ValidAccountData(data) then Some(ReadKey(data[0..32])) else None
  }

  /** On bytes the full unpacker accepts, the fast readers return the unpacked fields exactly when
      the account is initialized and the length and type byte mark it as an account. */
  lemma FastReadersAgree(data: seq<u8>, account: AccountRecord)
    requires |data| >= ACCOUNT_LEN && UnpackAccount(data) == Ok(account)
    ensures var live := account.state != Uninitialized
              && (|data| == ACCOUNT_LEN || (|data| != MULTISIG_LEN && data[ACCOUNT_LEN] == 2));
            && UnpackAccountOwner(data) == (if live then Some(account.owner) else None)
            && UnpackAccountMint(data) == (if live then Some(account.mint) else None)
  {
    assert account.state != Uninitialized <==> data[108] != 0;
  }

  /** The base state of an account of the ledger, as it is stored. */
  function RecordOf(a: Account): AccountRecord {
    AccountRecord(a.mint, a.owner, a.amount, a.delegate, if a.frozen then Frozen else Initialized,
                  a.native, a.delegatedAmount, a.closeAuthority)
  }

  /** An account of the ledger, packed over any old bytes, is read back whole by the unpacker and,
      in its owner and mint, by the fast readers. */
  lemma LedgerAccountIsReadable(a: Account, stale: seq<u8>)
    requires |stale| >= ACCOUNT_LEN
    ensures var data := AccountBytes(RecordOf(a), stale);
            && UnpackAccount(data) == Ok(RecordOf(a))
            && UnpackAccountOwner(data) == Some(a.owner)
            && UnpackAccountMint(data) == Some(a.mint)
  {
    var data := AccountBytes(RecordOf(a), stale);
    hide AccountBytes, UnpackAccount, UnpackAccountOwner, UnpackAccountMint;
    AccountRoundTrip(RecordOf(a), stale, []);
    assert data + [] == data;
    FastReadersAgree(data, RecordOf(a));
  }

  predicate GoodTag(tag: seq<u8>) {
    tag == NONE_TAG || tag == SOME_TAG
  }

  /** Where the two part: the fast readers look at no option tag and take every state byte but 0. */
  lemma FastReadersAcceptMore(data: seq<u8>)
    requires |data| == ACCOUNT_LEN
    ensures UnpackAccountOwner(data).Some? && UnpackAccount(data).Err?
       <==> && data[108] != 0
            && (|| data[108] > 2
                || !GoodTag(data[72..76]) || !GoodTag(data[109..113]) || !GoodTag(data[129..133]))
  {
    assert data[72..108][..4] == data[72..76];
    assert data[109..121][..4] == data[109..113];
    assert data[129..165][..4] == data[129..133];
  }

  // Options as plain old data

  /** `PodCOption`: the tag and the body as they lie in the buffer, whatever they are. */
  datatype PodOption<T> = PodOption(tag: seq<u8>, body: T) {
    predicate IsSome() {
      tag == SOME_TAG
    }

    predicate IsNone() {
      tag == NONE_TAG
    }

    function UnwrapOr(default: T): T {
      if tag == NONE_TAG then default else body
    }

    function OkOr(error: Error): Result<T> {
      if tag == SOME_TAG then Ok(body) else Err(error)
    }
  }

  function PodKeyOption(src: seq<u8>): PodOption<Pubkey>
    requires |src| == 36
  {
    PodOption(src[..4], ReadKey(src[4..]))
  }

  /** The in-place view and the copying unpacker read every well-tagged option alike; on any other
      tag the view is neither absent nor present, and `UnwrapOr` hands out the body. */
  lemma PodViewAgrees(src: seq<u8>, default: Pubkey, error: Error)
    requires |src| == 36
    ensures var pod := PodKeyOption(src);
            match UnpackKeyOption(src)
            case Ok(option) =>
              && pod.IsSome() == option.Some? && pod.IsNone() == option.None?
              && pod.UnwrapOr(default) == option.UnwrapOr(default)
              && pod.OkOr(error) == (if option.Some? then Ok(option.value) else Err(error))
            case Err(_) =>
              !pod.IsSome() && !pod.IsNone() && pod.UnwrapOr(default) == ReadKey(src[4..])
  {
    assert SOME_TAG[0] != NONE_TAG[0];
  }
}
