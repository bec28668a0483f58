/** `TokenInstruction`: packing into bytes and unpacking again. */
module InstructionCodec {
  import opened Prelude
  import opened Bytes

  /** The extensions a mint or an account can carry, in the order of their 16-bit codes. */
  datatype ExtensionType =
    | Uninitialized
    | TransferFeeConfig
    | TransferFeeAmount
    | MintCloseAuthority
    | ConfidentialTransferMint
    | ConfidentialTransferAccount
    | DefaultAccountState
    | ImmutableOwner
    | MemoTransfer
    | NonTransferable
    | InterestBearingConfig
    | CpiGuard
    | PermanentDelegate
    | NonTransferableAccount
    | TransferHook
    | TransferHookAccount
    | ConfidentialTransferFeeConfig
    | ConfidentialTransferFeeAmount
    | MetadataPointer
    | TokenMetadata
    | GroupPointer
    | TokenGroup
    | GroupMemberPointer
    | TokenGroupMember
    | ConfidentialMintBurn
    | ScaledUiAmount
    | Pausable
    | PausableAccount

  datatype TokenInstruction =
    | InitializeMint(decimals: u8, mintAuthority: Pubkey, freezeAuthority: Option<Pubkey>)
    | InitializeAccount
    | InitializeMultisig(m: u8)
    | Transfer(amount: u64)
    | Approve(amount: u64)
    | Revoke
    | SetAuthority(authorityType: AuthorityType, newAuthority: Option<Pubkey>)
    | MintTo(amount: u64)
    | Burn(amount: u64)
    | CloseAccount
    | FreezeAccount
    | ThawAccount
    | TransferChecked(amount: u64, decimals: u8)
    | ApproveChecked(amount: u64, decimals: u8)
    | MintToChecked(amount: u64, decimals: u8)
    | BurnChecked(amount: u64, decimals: u8)
    | InitializeAccount2(owner: Pubkey)
    | SyncNative
    | InitializeAccount3(owner: Pubkey)
    | InitializeMultisig2(m: u8)
    | InitializeMint2(decimals: u8, mintAuthority: Pubkey, freezeAuthority: Option<Pubkey>)
    | GetAccountDataSize(extensionTypes: seq<ExtensionType>)
    | InitializeImmutableOwner
    | AmountToUiAmount(amount: u64)
    | UiAmountToAmount(uiAmount: seq<u8>)
    | InitializeMintCloseAuthority(closeAuthority: Option<Pubkey>)
    | TransferFeeExtension
    | ConfidentialTransferExtension
    | DefaultAccountStateExtension
    | Reallocate(extensionTypes: seq<ExtensionType>)
    | MemoTransferExtension
    | CreateNativeMint
    | InitializeNonTransferableMint
    | InterestBearingMintExtension
    | CpiGuardExtension
    | InitializePermanentDelegate(delegate: Pubkey)
    | TransferHookExtension
    | ConfidentialTransferFeeExtension
    | WithdrawExcessLamports
    | MetadataPointerExtension
    | GroupPointerExtension
    | GroupMemberPointerExtension
    | ConfidentialMintBurnExtension
    | ScaledUiAmountExtension
    | PausableExtension

  // Codes of the enumerations

  function ExtensionCode(extension: ExtensionType): u16 {
    match extension
    case Uninitialized => 0
    case TransferFeeConfig => 1
    case TransferFeeAmount => 2
    case MintCloseAuthority => 3
    case ConfidentialTransferMint => 4
    case ConfidentialTransferAccount => 5
    case DefaultAccountState => 6
    case ImmutableOwner => 7
    case MemoTransfer => 8
    case NonTransferable => 9
    case InterestBearingConfig => 10
    case CpiGuard => 11
    case PermanentDelegate => 12
    case NonTransferableAccount => 13
    case TransferHook => 14
    case TransferHookAccount => 15
    case ConfidentialTransferFeeConfig => 16
    case ConfidentialTransferFeeAmount => 17
    case MetadataPointer => 18
    case TokenMetadata => 19
    case GroupPointer => 20
    case TokenGroup => 21
    case GroupMemberPointer => 22
    case TokenGroupMember => 23
    case ConfidentialMintBurn => 24
    case ScaledUiAmount => 25
    case Pausable => 26
    case PausableAccount => 27
  }

  function ExtensionOf(code: u16): Result<ExtensionType> {
    match code
    case 0 => Ok(ExtensionType.Uninitialized)
    case 1 => Ok(ExtensionType.TransferFeeConfig)
    case 2 => Ok(ExtensionType.TransferFeeAmount)
    case 3 => Ok(ExtensionType.MintCloseAuthority)
    case 4 => Ok(ExtensionType.ConfidentialTransferMint)
    case 5 => Ok(ExtensionType.ConfidentialTransferAccount)
    case 6 => Ok(ExtensionType.DefaultAccountState)
    case 7 => Ok(ExtensionType.ImmutableOwner)
    case 8 => Ok(ExtensionType.MemoTransfer)
    case 9 => Ok(ExtensionType.NonTransferable)
    case 10 => Ok(ExtensionType.InterestBearingConfig)
    case 11 => Ok(ExtensionType.CpiGuard)
    case 12 => Ok(ExtensionType.PermanentDelegate)
    case 13 => Ok(ExtensionType.NonTransferableAccount)
    case 14 => Ok(ExtensionType.TransferHook)
    case 15 => Ok(ExtensionType.TransferHookAccount)
    case 16 => Ok(ExtensionType.ConfidentialTransferFeeConfig)
    case 17 => Ok(ExtensionType.ConfidentialTransferFeeAmount)
    case 18 => Ok(ExtensionType.MetadataPointer)
    case 19 => Ok(ExtensionType.TokenMetadata)
    case 20 => Ok(ExtensionType.GroupPointer)
    case 21 => Ok(ExtensionType.TokenGroup)
    case 22 => Ok(ExtensionType.GroupMemberPointer)
    case 23 => Ok(ExtensionType.TokenGroupMember)
    case 24 => Ok(ExtensionType.ConfidentialMintBurn)
    case 25 => Ok(ExtensionType.ScaledUiAmount)
    case 26 => Ok(ExtensionType.Pausable)
    case 27 => Ok(ExtensionType.PausableAccount)
    case _ => Err(InvalidAccountData)
  }

  lemma ExtensionCodes(extension: ExtensionType, code: u16)
    ensures ExtensionOf(code) == Ok(extension) <==> code == ExtensionCode(extension)
  {
  }

  function AuthorityCode(kind: AuthorityType): u8 {
    match kind
    case MintTokens => 0
    case FreezeAccount => 1
    case AccountOwner => 2
    case CloseAccount => 3
    case TransferFeeConfig => 4
    case WithheldWithdraw => 5
    case CloseMint => 6
    case InterestRate => 7
    case PermanentDelegate => 8
    case ConfidentialTransferMint => 9
    case TransferHookProgramId => 10
    case ConfidentialTransferFeeConfig => 11
    case MetadataPointer => 12
    case GroupPointer => 13
    case GroupMemberPointer => 14
    case ScaledUiAmount => 15
    case Pause => 16
  }

  function AuthorityOf(code: u8): Result<AuthorityType> {
    match code
    case 0 => Ok(AuthorityType.MintTokens)
    case 1 => Ok(AuthorityType.FreezeAccount)
    case 2 => Ok(AuthorityType.AccountOwner)
    case 3 => Ok(AuthorityType.CloseAccount)
    case 4 => Ok(AuthorityType.TransferFeeConfig)
    case 5 => Ok(AuthorityType.WithheldWithdraw)
    case 6 => Ok(AuthorityType.CloseMint)
    case 7 => Ok(AuthorityType.InterestRate)
    case 8 => Ok(AuthorityType.PermanentDelegate)
    case 9 => Ok(AuthorityType.ConfidentialTransferMint)
    case 10 => Ok(AuthorityType.TransferHookProgramId)
    case 11 => Ok(AuthorityType.ConfidentialTransferFeeConfig)
    case 12 => Ok(AuthorityType.MetadataPointer)
    case 13 => Ok(AuthorityType.GroupPointer)
    case 14 => Ok(AuthorityType.GroupMemberPointer)
    case 15 => Ok(AuthorityType.ScaledUiAmount)
    case 16 => Ok(AuthorityType.Pause)
    case _ => Err(InvalidInstruction)
  }

  lemma AuthorityCodes(kind: AuthorityType, code: u8)
    ensures AuthorityOf(code) == Ok(kind) <==> code == AuthorityCode(kind)
  {
  }

  // The wire format

  /** What follows the tag byte. Instructions with the same fields share a layout. */
  datatype Payload =
    | Nothing
    | MintTerms(decimals: u8, mintAuthority: Pubkey, freezeAuthority: Option<Pubkey>)
    | Required(m: u8)
    | Amount(amount: u64)
    | Checked(amount: u64, decimals: u8)
    | Key(key: Pubkey)
    | MaybeKey(option: Option<Pubkey>)
    | NewAuthority(kind: AuthorityType, authority: Option<Pubkey>)
    | Types(types: seq<ExtensionType>)
    | Text(bytes: seq<u8>)
  {
    function Shape(): PayloadShape {
      match this
      case Nothing => NothingShape
      case MintTerms(_, _, _) => MintTermsShape
      case Required(_) => RequiredShape
      case Amount(_) => AmountShape
      case Checked(_, _) => CheckedShape
      case Key(_) => KeyShape
      case MaybeKey(_) => MaybeKeyShape
      case NewAuthority(_, _) => NewAuthorityShape
      case Types(_) => TypesShape
      case Text(_) => TextShape
    }

    /** Takes all bytes to the end of the input. */
    predicate Greedy() {
      Types? || Text?
    }
  }

  datatype PayloadShape =
    | NothingShape
    | MintTermsShape
    | RequiredShape
    | AmountShape
    | CheckedShape
    | KeyShape
    | MaybeKeyShape
    | NewAuthorityShape
    | TypesShape
    | TextShape

  const LAST_TAG: u8 := 44

  function ShapeOf(tag: u8): PayloadShape {
    match tag
    case 0 => MintTermsShape
    case 2 => RequiredShape
    case 3 => AmountShape
    case 4 => AmountShape
    case 6 => NewAuthorityShape
    case 7 => AmountShape
    case 8 => AmountShape
    case 12 => CheckedShape
    case 13 => CheckedShape
    case 14 => CheckedShape
    case 15 => CheckedShape
    case 16 => KeyShape
    case 18 => KeyShape
    case 19 => RequiredShape
    case 20 => MintTermsShape
    case 21 => TypesShape
    case 23 => AmountShape
    case 24 => TextShape
    case 25 => MaybeKeyShape
    case 29 => TypesShape
    case 35 => KeyShape
    case _ => NothingShape
  }

  function Tag(i: TokenInstruction): (tag: u8) {
    match i
    case InitializeMint(_, _, _) => 0
    case InitializeAccount => 1
    case InitializeMultisig(_) => 2
    case Transfer(_) => 3
    case Approve(_) => 4
    case Revoke => 5
    case SetAuthority(_, _) => 6
    case MintTo(_) => 7
    case Burn(_) => 8
    case CloseAccount => 9
    case FreezeAccount => 10
    case ThawAccount => 11
    case TransferChecked(_, _) => 12
    case ApproveChecked(_, _) => 13
    case MintToChecked(_, _) => 14
    case BurnChecked(_, _) => 15
    case InitializeAccount2(_) => 16
    case SyncNative => 17
    case InitializeAccount3(_) => 18
    case InitializeMultisig2(_) => 19
    case InitializeMint2(_, _, _) => 20
    case GetAccountDataSize(_) => 21
    case InitializeImmutableOwner => 22
    case AmountToUiAmount(_) => 23
    case UiAmountToAmount(_) => 24
    case InitializeMintCloseAuthority(_) => 25
    case TransferFeeExtension => 26
    case ConfidentialTransferExtension => 27
    case DefaultAccountStateExtension => 28
    case Reallocate(_) => 29
    case MemoTransferExtension => 30
    case CreateNativeMint => 31
    case InitializeNonTransferableMint => 32
    case InterestBearingMintExtension => 33
    case CpiGuardExtension => 34
    case InitializePermanentDelegate(_) => 35
    case TransferHookExtension => 36
    case ConfidentialTransferFeeExtension => 37
    case WithdrawExcessLamports => 38
    case MetadataPointerExtension => 39
    case GroupPointerExtension => 40
    case GroupMemberPointerExtension => 41
    case ConfidentialMintBurnExtension => 42
    case ScaledUiAmountExtension => 43
    case PausableExtension => 44
  }

  function PayloadOf(i: TokenInstruction): Payload {
    match i
    case InitializeMint(decimals, mintAuthority, freezeAuthority) => MintTerms(decimals, mintAuthority, freezeAuthority)
    case InitializeMultisig(m) => Required(m)
    case Transfer(amount) => Amount(amount)
    case Approve(amount) => Amount(amount)
    case SetAuthority(authorityType, newAuthority) => NewAuthority(authorityType, newAuthority)
    case MintTo(amount) => Amount(amount)
    case Burn(amount) => Amount(amount)
    case TransferChecked(amount, decimals) => Checked(amount, decimals)
    case ApproveChecked(amount, decimals) => Checked(amount, decimals)
    case MintToChecked(amount, decimals) => Checked(amount, decimals)
    case BurnChecked(amount, decimals) => Checked(amount, decimals)
    case InitializeAccount2(owner) => Key(owner)
    case InitializeAccount3(owner) => Key(owner)
    case InitializeMultisig2(m) => Required(m)
    case InitializeMint2(decimals, mintAuthority, freezeAuthority) =>
      MintTerms(decimals, mintAuthority, freezeAuthority)
    case GetAccountDataSize(extensionTypes) => Types(extensionTypes)
    case AmountToUiAmount(amount) => Amount(amount)
    case UiAmountToAmount(uiAmount) => Text(uiAmount)
    case InitializeMintCloseAuthority(closeAuthority) => MaybeKey(closeAuthority)
    case Reallocate(extensionTypes) => Types(extensionTypes)
    case InitializePermanentDelegate(delegate) => Key(delegate)
    case _ => Nothing
  }

  /** The instruction with this tag and this payload. */
  function Assemble(tag: u8, p: Payload): TokenInstruction
    requires tag <= LAST_TAG && p.Shape() == ShapeOf(tag)
  {
    match tag
    case 0 => InitializeMint(p.decimals, p.mintAuthority, p.freezeAuthority)
    case 1 => InitializeAccount
    case 2 => InitializeMultisig(p.m)
    case 3 => Transfer(p.amount)
    case 4 => Approve(p.amount)
    case 5 => Revoke
    case 6 => SetAuthority(p.kind, p.authority)
    case 7 => MintTo(p.amount)
    case 8 => Burn(p.amount)
    case 9 => TokenInstruction.CloseAccount
    case 10 => TokenInstruction.FreezeAccount
    case 11 => ThawAccount
    case 12 => TransferChecked(p.amount, p.decimals)
    case 13 => ApproveChecked(p.amount, p.decimals)
    case 14 => MintToChecked(p.amount, p.decimals)
    case 15 => BurnChecked(p.amount, p.decimals)
    case 16 => InitializeAccount2(p.key)
    case 17 => SyncNative
    case 18 => InitializeAccount3(p.key)
    case 19 => InitializeMultisig2(p.m)
    case 20 => InitializeMint2(p.decimals, p.mintAuthority, p.freezeAuthority)
    case 21 => GetAccountDataSize(p.types)
    case 22 => InitializeImmutableOwner
    case 23 => AmountToUiAmount(p.amount)
    case 24 => UiAmountToAmount(p.bytes)
    case 25 => InitializeMintCloseAuthority(p.option)
    case 26 => TransferFeeExtension
    case 27 => ConfidentialTransferExtension
    case 28 => DefaultAccountStateExtension
    case 29 => Reallocate(p.types)
    case 30 => MemoTransferExtension
    case 31 => CreateNativeMint
    case 32 => InitializeNonTransferableMint
    case 33 => InterestBearingMintExtension
    case 34 => CpiGuardExtension
    case 35 => InitializePermanentDelegate(p.key)
    case 36 => TransferHookExtension
    case 37 => ConfidentialTransferFeeExtension
    case 38 => WithdrawExcessLamports
    case 39 => MetadataPointerExtension
    case 40 => GroupPointerExtension
    case 41 => GroupMemberPointerExtension
    case 42 => ConfidentialMintBurnExtension
    case 43 => ScaledUiAmountExtension
    case _ => PausableExtension
  }

  lemma TagTellsShape(i: TokenInstruction)
    ensures Tag(i) <= LAST_TAG && PayloadOf(i).Shape() == ShapeOf(Tag(i))
  {
  }

  lemma Disassembled(i: TokenInstruction)
    ensures Tag(i) <= LAST_TAG && PayloadOf(i).Shape() == ShapeOf(Tag(i))
    ensures Assemble(Tag(i), PayloadOf(i)) == i
  {
    TagTellsShape(i);
    hide ShapeOf;
  }

  lemma Assembled(tag: u8, p: Payload)
    requires tag <= LAST_TAG && p.Shape() == ShapeOf(tag)
    ensures Tag(Assemble(tag, p)) == tag && PayloadOf(Assemble(tag, p)) == p
  {
  }

  function OptionBytes(option: Option<Pubkey>): (b: seq<u8>)
    ensures b != [] && b[0] == (if option.Some? then 1 else 0)
  {
    match option
    case Some(key) => [1] + KeyBytes(key)
    case None => [0]
  }

  function EncodeTypes(types: seq<ExtensionType>): seq<u8> {
    if types == [] then [] else U16Bytes(ExtensionCode(types[0])) + EncodeTypes(types[1..])
  }

  function Encode(p: Payload): seq<u8> {
    match p
    case Nothing => []
    case MintTerms(decimals, mintAuthority, freezeAuthority) =>
      [decimals] + KeyBytes(mintAuthority) + OptionBytes(freezeAuthority)
    case Required(m) => [m]
    case Amount(amount) => U64Bytes(amount)
    case Checked(amount, decimals) => U64Bytes(amount) + [decimals]
    case Key(key) => KeyBytes(key)
    case MaybeKey(option) => OptionBytes(option)
    case NewAuthority(kind, authority) => [AuthorityCode(kind)] + OptionBytes(authority)
    case Types(types) => EncodeTypes(types)
    case Text(bytes) => bytes
  }

  function Packed(i: TokenInstruction): seq<u8> {
    [Tag(i)] + Encode(PayloadOf(i))
  }

  /** A `&str` holds valid UTF-8; which bytes those are is the parameter `utf8`. */
  predicate WellFormed(i: TokenInstruction, utf8: seq<u8> -> bool) {
    i.UiAmountToAmount? ==> utf8(i.uiAmount)
  }

  /** `input` is an encoding of `i`: its packed form, and behind that any bytes at all unless the
      payload runs to the end. */
  predicate Represents(input: seq<u8>, i: TokenInstruction, utf8: seq<u8> -> bool) {
    && WellFormed(i, utf8)
    && Packed(i) <= input
    && (PayloadOf(i).Greedy() ==> input == Packed(i))
  }

  // Packing

  method PackPubkeyOption(option: Option<Pubkey>, buf: seq<u8>) returns (extended: seq<u8>)
    ensures extended == buf + OptionBytes(option)
  {
    match option {
      case Some(key) =>
        extended := buf + [1];
        extended := extended + KeyBytes(key);
        assert extended == buf + ([1] + KeyBytes(key));
      case None =>
        extended := buf + [0];
    }
  }

  method PackExtensionTypes(types: seq<ExtensionType>, buf: seq<u8>) returns (extended: seq<u8>)
    ensures extended == buf + EncodeTypes(types)
  {
    extended := buf;
    for k := 0 to |types|
      invariant extended + EncodeTypes(types[k..]) == buf + EncodeTypes(types)
    {
      var code := U16Bytes(ExtensionCode(types[k]));
      assert types[k..][1..] == types[k + 1..];
      assert extended + code + EncodeTypes(types[k + 1..]) == extended + (code + EncodeTypes(types[k + 1..]));
      extended := extended + code;
    }
    assert EncodeTypes(types[|types|..]) == [];
  }

  method PackPayload(tag: u8, p: Payload) returns (buf: seq<u8>)
    ensures buf == [tag] + Encode(p)
  {
    hide LeValue, LeBytes, Power256, KeyBytes, U64Bytes, OptionBytes, EncodeTypes, AuthorityCode;
    buf := [tag];
    match p {
      case Nothing =>
      case MintTerms(decimals, mintAuthority, freezeAuthority) =>
        buf := buf + [decimals];
        buf := buf + KeyBytes(mintAuthority);
        buf := PackPubkeyOption(freezeAuthority, buf);
        assert buf == [tag] + ([decimals] + KeyBytes(mintAuthority) + OptionBytes(freezeAuthority));
      case Required(m) =>
        buf := buf + [m];
      case Amount(amount) =>
        buf := buf + U64Bytes(amount);
      case Checked(amount, decimals) =>
        buf := buf + U64Bytes(amount);
        buf := buf + [decimals];
        assert buf == [tag] + (U64Bytes(amount) + [decimals]);
      case Key(key) =>
        buf := buf + KeyBytes(key);
      case MaybeKey(option) =>
        buf := PackPubkeyOption(option, buf);
      case NewAuthority(kind, authority) =>
        buf := buf + [AuthorityCode(kind)];
        buf := PackPubkeyOption(authority, buf);
        assert buf == [tag] + ([AuthorityCode(kind)] + OptionBytes(authority));
      case Types(types) =>
        buf := PackExtensionTypes(types, buf);
      case Text(bytes) =>
        buf := buf + bytes;
    }
  }

  method Pack(i: TokenInstruction) returns (buf: seq<u8>)
    ensures buf == Packed(i)
  {
    buf := PackPayload(Tag(i), PayloadOf(i));
  }

  // Unpacking

  function SplitFirst(input: seq<u8>): Result<(u8, seq<u8>)> {
    if input == [] then Err(InvalidInstruction) else Ok((input[0], input[1..]))
  }

  function UnpackPubkey(input: seq<u8>): (r: Result<(Pubkey, seq<u8>)>)
    ensures r.Ok? <==> |input| >= 32
    ensures r.Ok? ==> input == KeyBytes(r.value.0) + r.value.1
    ensures r.Err? ==> r.error == InvalidInstruction
  {
    if |input| < 32 then Err(InvalidInstruction)
    else
      ReadsAreExact(input[..32]);
      Ok((ReadKey(input[..32]), input[32..]))
  }

  function UnpackPubkeyOption(input: seq<u8>): (r: Result<(Option<Pubkey>, seq<u8>)>)
    ensures r.Ok? ==> input == OptionBytes(r.value.0) + r.value.1
    ensures r.Err? ==> r.error == InvalidInstruction
  {
    if input != [] && input[0] == 0 then Ok((None, input[1..]))
    else if input != [] && input[0] == 1 then
      var (key, rest) :- UnpackPubkey(input[1..]);
      assert input == [1] + (KeyBytes(key) + rest);
      Ok((Some(key), rest))
    else Err(InvalidInstruction)
  }

  function UnpackU64(input: seq<u8>): (r: Result<(u64, seq<u8>)>)
    ensures r.Ok? <==> |input| >= 8
    ensures r.Ok? ==> input == U64Bytes(r.value.0) + r.value.1
    ensures r.Err? ==> r.error == InvalidInstruction
  {
    if |input| < 8 then Err(InvalidInstruction)
    else
      ReadsAreExact(input[..8]);
      Ok((ReadU64(input[..8]), input[8..]))
  }

  function UnpackAmountDecimals(input: seq<u8>): (r: Result<(u64, u8, seq<u8>)>)
    ensures r.Ok? <==> |input| >= 9
    ensures r.Ok? ==> input == U64Bytes(r.value.0) + [r.value.1] + r.value.2
    ensures r.Err? ==> r.error == InvalidInstruction
  {
    var (amount, rest) :- UnpackU64(input);
    var (decimals, tail) :- SplitFirst(rest);
    Ok((amount, decimals, tail))
  }

  /** Two bytes to a code; an odd byte at the end is an error. */
  function DecodeTypes(b: seq<u8>): (r: Result<seq<ExtensionType>>)
    ensures r.Err? ==> r.error == InvalidAccountData
  {
    if b == [] then Ok([])
    else if |b| == 1 then Err(InvalidAccountData)
    else
      var extension :- ExtensionOf(ReadU16(b[..2]));
      var others :- DecodeTypes(b[2..]);
      Ok([extension] + others)
  }

  method UnpackExtensionTypes(b: seq<u8>) returns (r: Result<seq<ExtensionType>>)
    ensures r == DecodeTypes(b)
  {
    var types, at := [], 0;
    assert b[0..] == b && (DecodeTypes(b).Ok? ==> [] + DecodeTypes(b).value == DecodeTypes(b).value);
    while at < |b|
      invariant 0 <= at <= |b|
      invariant DecodeTypes(b)
             == match DecodeTypes(b[at..]) case Ok(others) => Ok(types + others) case Err(e) => Err(e)
    {
      if |b| - at == 1 {
        return Err(InvalidAccountData);
      }
      assert b[at..][..2] == b[at..at + 2] && b[at..][2..] == b[at + 2..];
      var extension :- ExtensionOf(ReadU16(b[at..at + 2]));
      ghost var before := types;
      types := types + [extension];
      if DecodeTypes(b[at + 2..]).Ok? {
        ghost var others := DecodeTypes(b[at + 2..]).value;
        assert before + ([extension] + others) == types + others;
      }
      at := at + 2;
    }
    assert b[at..] == [] && types + [] == types;
    return Ok(types);
  }

  function DecodePayload(shape: PayloadShape, rest: seq<u8>, utf8: seq<u8> -> bool): Result<Payload> {
    match shape
    case NothingShape => Ok(Nothing)
    case MintTermsShape =>
      var (decimals, keys) :- SplitFirst(rest);
      var (mintAuthority, tail) :- UnpackPubkey(keys);
      var (freezeAuthority, _) :- UnpackPubkeyOption(tail);
      Ok(MintTerms(decimals, mintAuthority, freezeAuthority))
    case RequiredShape => var (m, _) :- SplitFirst(rest); Ok(Required(m))
    case AmountShape => var (amount, _) :- UnpackU64(rest); Ok(Amount(amount))
    case CheckedShape =>
      var (amount, decimals, _) :- UnpackAmountDecimals(rest);
      Ok(Checked(amount, decimals))
    case KeyShape => var (key, _) :- UnpackPubkey(rest); Ok(Key(key))
    case MaybeKeyShape => var (option, _) :- UnpackPubkeyOption(rest); Ok(MaybeKey(option))
    case NewAuthorityShape =>
      var (code, tail) :- SplitFirst(rest);
      var kind :- AuthorityOf(code);
      var (authority, _) :- UnpackPubkeyOption(tail);
      Ok(NewAuthority(kind, authority))
    case TypesShape => var types :- DecodeTypes(rest); Ok(Types(types))
    case TextShape => if utf8(rest) then Ok(Text(rest)) else Err(InvalidInstruction)
  }

  function Unpacked(input: seq<u8>, utf8: seq<u8> -> bool): Result<TokenInstruction> {
    var (tag, rest) :- SplitFirst(input);
    if tag > LAST_TAG then Err(InvalidInstruction)
    else
      var p :- DecodePayload(ShapeOf(tag), rest, utf8);
      Ok(Assemble(tag, p))
  }

  method Unpack(input: seq<u8>, utf8: seq<u8> -> bool) returns (r: Result<TokenInstruction>)
    ensures r == Unpacked(input, utf8)
  {
    hide LeValue, LeBytes, Power256, ReadKey, ReadU64, ReadU16, KeyBytes, U64Bytes, OptionBytes,
         UnpackPubkey, UnpackPubkeyOption, UnpackU64, UnpackAmountDecimals, DecodeTypes, AuthorityOf;
    var first :- SplitFirst(input);
    var tag, rest := first.0, first.1;
    match tag {
      case 0 =>
        var decimals :- SplitFirst(rest);
        var mintAuthority :- UnpackPubkey(decimals.1);
        var freezeAuthority :- UnpackPubkeyOption(mintAuthority.1);
        return Ok(InitializeMint(decimals.0, mintAuthority.0, freezeAuthority.0));
      case 1 =>
        return Ok(InitializeAccount);
      case 2 =>
        var m :- SplitFirst(rest);
        return Ok(InitializeMultisig(m.0));
      case 3 =>
        var amount :- UnpackU64(rest);
        return Ok(Transfer(amount.0));
      case 4 =>
        var amount :- UnpackU64(rest);
        return Ok(Approve(amount.0));
      case 5 =>
        return Ok(Revoke);
      case 6 =>
        var code :- SplitFirst(rest);
        var authorityType :- AuthorityOf(code.0);
        var newAuthority :- UnpackPubkeyOption(code.1);
        return Ok(SetAuthority(authorityType, newAuthority.0));
      case 7 =>
        var amount :- UnpackU64(rest);
        return Ok(MintTo(amount.0));
      case 8 =>
        var amount :- UnpackU64(rest);
        return Ok(Burn(amount.0));
      case 9 =>
        return Ok(TokenInstruction.CloseAccount);
      case 10 =>
        return Ok(TokenInstruction.FreezeAccount);
      case 11 =>
        return Ok(ThawAccount);
      case 12 =>
        var terms :- UnpackAmountDecimals(rest);
        return Ok(TransferChecked(terms.0, terms.1));
      case 13 =>
        var terms :- UnpackAmountDecimals(rest);
        return Ok(ApproveChecked(terms.0, terms.1));
      case 14 =>
        var terms :- UnpackAmountDecimals(rest);
        return Ok(MintToChecked(terms.0, terms.1));
      case 15 =>
        var terms :- UnpackAmountDecimals(rest);
        return Ok(BurnChecked(terms.0, terms.1));
      case 16 =>
        var owner :- UnpackPubkey(rest);
        return Ok(InitializeAccount2(owner.0));
      case 17 =>
        return Ok(SyncNative);
      case 18 =>
        var owner :- UnpackPubkey(rest);
        return Ok(InitializeAccount3(owner.0));
      case 19 =>
        var m :- SplitFirst(rest);
        return Ok(InitializeMultisig2(m.0));
      case 20 =>
        var decimals :- SplitFirst(rest);
        var mintAuthority :- UnpackPubkey(decimals.1);
        var freezeAuthority :- UnpackPubkeyOption(mintAuthority.1);
        return Ok(InitializeMint2(decimals.0, mintAuthority.0, freezeAuthority.0));
      case 21 =>
        var extensionTypes :- UnpackExtensionTypes(rest);
        return Ok(GetAccountDataSize(extensionTypes));
      case 22 =>
        return Ok(InitializeImmutableOwner);
      case 23 =>
        var amount :- UnpackU64(rest);
        return Ok(AmountToUiAmount(amount.0));
      case 24 =>
        if !utf8(rest) {
          return Err(InvalidInstruction);
        }
        return Ok(UiAmountToAmount(rest));
      case 25 =>
        var closeAuthority :- UnpackPubkeyOption(rest);
        return Ok(InitializeMintCloseAuthority(closeAuthority.0));
      case 26 =>
        return Ok(TransferFeeExtension);
      case 27 =>
        return Ok(ConfidentialTransferExtension);
      case 28 =>
        return Ok(DefaultAccountStateExtension);
      case 29 =>
        var extensionTypes :- UnpackExtensionTypes(rest);
        return Ok(Reallocate(extensionTypes));
      case 30 =>
        return Ok(MemoTransferExtension);
      case 31 =>
        return Ok(CreateNativeMint);
      case 32 =>
        return Ok(InitializeNonTransferableMint);
      case 33 =>
        return Ok(InterestBearingMintExtension);
      case 34 =>
        return Ok(CpiGuardExtension);
      case 35 =>
        var delegate :- UnpackPubkey(rest);
        return Ok(InitializePermanentDelegate(delegate.0));
      case 36 =>
        return Ok(TransferHookExtension);
      case 37 =>
        return Ok(ConfidentialTransferFeeExtension);
      case 38 =>
        return Ok(WithdrawExcessLamports);
      case 39 =>
        return Ok(MetadataPointerExtension);
      case 40 =>
        return Ok(GroupPointerExtension);
      case 41 =>
        return Ok(GroupMemberPointerExtension);
      case 42 =>
        return Ok(ConfidentialMintBurnExtension);
      case 43 =>
        return Ok(ScaledUiAmountExtension);
      case 44 =>
        return Ok(PausableExtension);
      case _ =>
        return Err(InvalidInstruction);
    }
  }

  // Soundness and completeness of unpacking

  lemma OptionUnpacks(option: Option<Pubkey>, rest: seq<u8>)
    ensures UnpackPubkeyOption(OptionBytes(option) + rest) == Ok((option, rest))
  {
    var input := OptionBytes(option) + rest;
    match option {
      case Some(key) =>
        assert input == [1] + (KeyBytes(key) + rest);
        assert input[1..] == KeyBytes(key) + rest;
        KeyUnpacks(key, rest);
      case None =>
        assert input[1..] == rest;
    }
  }

  lemma KeyUnpacks(key: Pubkey, rest: seq<u8>)
    ensures UnpackPubkey(KeyBytes(key) + rest) == Ok((key, rest))
  {
    var input := KeyBytes(key) + rest;
    assert input[..32] == KeyBytes(key) && input[32..] == rest;
  }

  lemma U64Unpacks(amount: u64, rest: seq<u8>)
    ensures UnpackU64(U64Bytes(amount) + rest) == Ok((amount, rest))
  {
    var input := U64Bytes(amount) + rest;
    assert input[..8] == U64Bytes(amount) && input[8..] == rest;
  }

  lemma {:induction false} TypesUnpack(types: seq<ExtensionType>)
    ensures DecodeTypes(EncodeTypes(types)) == Ok(types)
  {
    if types != [] {
      TypesUnpack(types[1..]);
      var b := EncodeTypes(types);
      assert b[..2] == U16Bytes(ExtensionCode(types[0])) && b[2..] == EncodeTypes(types[1..]);
      ExtensionCodes(types[0], ExtensionCode(types[0]));
      assert types == [types[0]] + types[1..];
    }
  }

  lemma {:induction false} TypesPack(b: seq<u8>)
    requires DecodeTypes(b).Ok?
    ensures EncodeTypes(DecodeTypes(b).value) == b
  {
    if b != [] {
      TypesPack(b[2..]);
      var types := DecodeTypes(b).value;
      ReadsAreExact(b[..2]);
      ExtensionCodes(types[0], ReadU16(b[..2]));
      assert types[1..] == DecodeTypes(b[2..]).value;
      assert b == b[..2] + b[2..];
    }
  }

  lemma MintTermsSound(rest: seq<u8>, utf8: seq<u8> -> bool)
    requires DecodePayload(MintTermsShape, rest, utf8).Ok?
    ensures var p := DecodePayload(MintTermsShape, rest, utf8).value;
            p.MintTerms? && Encode(p) <= rest
  {
    hide LeValue, LeBytes, Power256, KeyBytes, OptionBytes, UnpackPubkey, UnpackPubkeyOption;
    var (mintAuthority, tail) := UnpackPubkey(rest[1..]).value;
    var (freezeAuthority, end) := UnpackPubkeyOption(tail).value;
    assert rest == [rest[0]] + KeyBytes(mintAuthority) + OptionBytes(freezeAuthority) + end;
  }

  lemma NewAuthoritySound(rest: seq<u8>, utf8: seq<u8> -> bool)
    requires DecodePayload(NewAuthorityShape, rest, utf8).Ok?
    ensures var p := DecodePayload(NewAuthorityShape, rest, utf8).value;
            p.NewAuthority? && Encode(p) <= rest
  {
    hide LeValue, LeBytes, Power256, OptionBytes, UnpackPubkeyOption, AuthorityOf, AuthorityCode;
    AuthorityCodes(AuthorityOf(rest[0]).value, rest[0]);
    var (authority, end) := UnpackPubkeyOption(rest[1..]).value;
    assert rest == [rest[0]] + OptionBytes(authority) + end;
  }

  /** A decoded payload is a prefix of the bytes, or all of them where the layout is greedy. */
  lemma DecodeIsSound(shape: PayloadShape, rest: seq<u8>, utf8: seq<u8> -> bool)
    requires DecodePayload(shape, rest, utf8).Ok?
    ensures var p := DecodePayload(shape, rest, utf8).value;
            && p.Shape() == shape
            && Encode(p) <= rest
            && (p.Greedy() ==> rest == Encode(p))
            && (p.Text? ==> utf8(p.bytes))
  {
    hide LeValue, LeBytes, Power256, KeyBytes, U64Bytes, OptionBytes,
         UnpackPubkey, UnpackPubkeyOption, UnpackU64, UnpackAmountDecimals, AuthorityOf;
    match shape {
      case MintTermsShape =>
        MintTermsSound(rest, utf8);
      case NewAuthorityShape =>
        NewAuthoritySound(rest, utf8);
      case TypesShape =>
        TypesPack(rest);
      case _ =>
    }
  }

  lemma MintTermsDecode(
    decimals: u8, mintAuthority: Pubkey, freezeAuthority: Option<Pubkey>, rest: seq<u8>, utf8: seq<u8> -> bool)
    ensures var p := MintTerms(decimals, mintAuthority, freezeAuthority);
            DecodePayload(MintTermsShape, Encode(p) + rest, utf8) == Ok(p)
  {
    hide LeValue, LeBytes, Power256, KeyBytes, OptionBytes, UnpackPubkey, UnpackPubkeyOption;
    var input := [decimals] + KeyBytes(mintAuthority) + OptionBytes(freezeAuthority) + rest;
    assert input[1..] == KeyBytes(mintAuthority) + (OptionBytes(freezeAuthority) + rest);
    KeyUnpacks(mintAuthority, OptionBytes(freezeAuthority) + rest);
    OptionUnpacks(freezeAuthority, rest);
  }

  lemma NewAuthorityDecodes(kind: AuthorityType, authority: Option<Pubkey>, rest: seq<u8>, utf8: seq<u8> -> bool)
    ensures var p := NewAuthority(kind, authority);
            DecodePayload(NewAuthorityShape, Encode(p) + rest, utf8) == Ok(p)
  {
    hide LeValue, LeBytes, Power256, OptionBytes, UnpackPubkeyOption, AuthorityOf, AuthorityCode;
    var input := [AuthorityCode(kind)] + OptionBytes(authority) + rest;
    assert input[1..] == OptionBytes(authority) + rest;
    AuthorityCodes(kind, AuthorityCode(kind));
    OptionUnpacks(authority, rest);
  }

  /** Every payload decodes from its own bytes, whatever follows where that is allowed. */
  lemma DecodeIsComplete(p: Payload, rest: seq<u8>, utf8: seq<u8> -> bool)
    requires p.Greedy() ==> rest == []
    requires p.Text? ==> utf8(p.bytes)
    ensures DecodePayload(p.Shape(), Encode(p) + rest, utf8) == Ok(p)
  {
    hide LeValue, LeBytes, Power256, KeyBytes, U64Bytes, OptionBytes,
         UnpackPubkey, UnpackPubkeyOption, UnpackU64, AuthorityOf, AuthorityCode;
    var input := Encode(p) + rest;
    match p {
      case Nothing =>
      case MintTerms(decimals, mintAuthority, freezeAuthority) =>
        MintTermsDecode(decimals, mintAuthority, freezeAuthority, rest, utf8);
      case Required(_) =>
      case Amount(amount) =>
        U64Unpacks(amount, rest);
      case Checked(amount, decimals) =>
        assert input == U64Bytes(amount) + ([decimals] + rest);
        U64Unpacks(amount, [decimals] + rest);
      case Key(key) =>
        KeyUnpacks(key, rest);
      case MaybeKey(option) =>
        OptionUnpacks(option, rest);
      case NewAuthority(kind, authority) =>
        NewAuthorityDecodes(kind, authority, rest, utf8);
      case Types(types) =>
        TypesUnpack(types);
        assert input == EncodeTypes(types);
      case Text(bytes) =>
        assert input == bytes;
    }
  }

  /** Unpacking answers exactly: it finds the instruction the bytes represent, and fails on bytes
      that represent none. */
  lemma UnpackedExact(input: seq<u8>, i: TokenInstruction, utf8: seq<u8> -> bool)
    ensures Unpacked(input, utf8) == Ok(i) <==> Represents(input, i, utf8)
  {
    hide Tag, PayloadOf, Assemble, DecodePayload, Encode, ShapeOf;
    if Unpacked(input, utf8) == Ok(i) {
      var p := DecodePayload(ShapeOf(input[0]), input[1..], utf8).value;
      DecodeIsSound(ShapeOf(input[0]), input[1..], utf8);
      Assembled(input[0], p);
      TextOnly(i);
      assert input == [input[0]] + input[1..];
    }
    if Represents(input, i, utf8) {
      var p := PayloadOf(i);
      var rest := input[|Packed(i)|..];
      assert input[1..] == Encode(p) + rest;
      TextOnly(i);
      DecodeIsComplete(p, rest, utf8);
      Disassembled(i);
    }
  }

  /** Bytes that represent nothing are an invalid instruction, or a list of extension types that is odd
      or names none. */
  lemma UnpackErrors(input: seq<u8>, utf8: seq<u8> -> bool, e: Error)
    requires Unpacked(input, utf8) == Err(e)
    ensures e == InvalidInstruction || (e == InvalidAccountData && input[0] in {21, 29})
  {
    hide Assemble;
  }

  lemma TextOnly(i: TokenInstruction)
    ensures i.UiAmountToAmount? <==> PayloadOf(i).Text?
    ensures i.UiAmountToAmount? ==> PayloadOf(i) == Text(i.uiAmount)
  {
  }

  lemma GreedyTags(i: TokenInstruction)
    ensures PayloadOf(i).Greedy() <==> Tag(i) in {21, 24, 29}
  {
  }

  /** Packing and unpacking are inverse, also with bytes appended where the layout ends by itself. */
  lemma RoundTrip(i: TokenInstruction, more: seq<u8>, utf8: seq<u8> -> bool)
    requires WellFormed(i, utf8)
    requires Tag(i) in {21, 24, 29} ==> more == []
    ensures Unpacked(Packed(i) + more, utf8) == Ok(i)
  {
    GreedyTags(i);
    hide Packed, Unpacked, Tag, PayloadOf;
    assert PayloadOf(i).Greedy() ==> Packed(i) + more == Packed(i);
    UnpackedExact(Packed(i) + more, i, utf8);
  }

  predicate AnyText(b: seq<u8>) {
    true
  }

  /** No instruction packs into a proper prefix of another, the three greedy layouts aside. */
  lemma PackingIsPrefixFree(i: TokenInstruction, j: TokenInstruction)
    requires Packed(i) <= Packed(j) && Tag(i) !in {21, 24, 29}
    ensures i == j
  {
    hide Packed, Unpacked, Tag;
    var more := Packed(j)[|Packed(i)|..];
    assert Packed(i) + more == Packed(j);
    RoundTrip(i, more, AnyText);
    Readable(j);
  }

  lemma Readable(i: TokenInstruction)
    ensures Unpacked(Packed(i), AnyText) == Ok(i)
  {
    hide Packed, Unpacked, Tag;
    assert Packed(i) + [] == Packed(i);
    RoundTrip(i, [], AnyText);
  }

  lemma PackingIsInjective(i: TokenInstruction, j: TokenInstruction)
    requires Packed(i) == Packed(j)
    ensures i == j
  {
    hide Packed, Unpacked;
    Readable(i);
    Readable(j);
  }

  // The bytes, one by one

  /** The first byte of each instruction, */
  lemma FirstBytes(i: TokenInstruction)
    ensures Packed(i)[0] == Tag(i)
    ensures
      && (i.InitializeMint? ==> Tag(i) == 0) && (i.InitializeAccount? ==> Tag(i) == 1)
      && (i.InitializeMultisig? ==> Tag(i) == 2) && (i.Transfer? ==> Tag(i) == 3)
      && (i.Approve? ==> Tag(i) == 4) && (i.Revoke? ==> Tag(i) == 5) && (i.SetAuthority? ==> Tag(i) == 6)
      && (i.MintTo? ==> Tag(i) == 7) && (i.Burn? ==> Tag(i) == 8) && (i.CloseAccount? ==> Tag(i) == 9)
      && (i.FreezeAccount? ==> Tag(i) == 10) && (i.ThawAccount? ==> Tag(i) == 11)
      && (i.TransferChecked? ==> Tag(i) == 12) && (i.ApproveChecked? ==> Tag(i) == 13)
      && (i.MintToChecked? ==> Tag(i) == 14) && (i.BurnChecked? ==> Tag(i) == 15)
      && (i.InitializeAccount2? ==> Tag(i) == 16) && (i.SyncNative? ==> Tag(i) == 17)
      && (i.InitializeAccount3? ==> Tag(i) == 18) && (i.InitializeMultisig2? ==> Tag(i) == 19)
      && (i.InitializeMint2? ==> Tag(i) == 20) && (i.GetAccountDataSize? ==> Tag(i) == 21)
      && (i.InitializeImmutableOwner? ==> Tag(i) == 22) && (i.AmountToUiAmount? ==> Tag(i) == 23)
      && (i.UiAmountToAmount? ==> Tag(i) == 24) && (i.InitializeMintCloseAuthority? ==> Tag(i) == 25)
      && (i.TransferFeeExtension? ==> Tag(i) == 26) && (i.ConfidentialTransferExtension? ==> Tag(i) == 27)
      && (i.DefaultAccountStateExtension? ==> Tag(i) == 28) && (i.Reallocate? ==> Tag(i) == 29)
      && (i.MemoTransferExtension? ==> Tag(i) == 30) && (i.CreateNativeMint? ==> Tag(i) == 31)
      && (i.InitializeNonTransferableMint? ==> Tag(i) == 32)
      && (i.InterestBearingMintExtension? ==> Tag(i) == 33) && (i.CpiGuardExtension? ==> Tag(i) == 34)
      && (i.InitializePermanentDelegate? ==> Tag(i) == 35) && (i.TransferHookExtension? ==> Tag(i) == 36)
      && (i.ConfidentialTransferFeeExtension? ==> Tag(i) == 37) && (i.WithdrawExcessLamports? ==> Tag(i) == 38)
      && (i.MetadataPointerExtension? ==> Tag(i) == 39) && (i.GroupPointerExtension? ==> Tag(i) == 40)
      && (i.GroupMemberPointerExtension? ==> Tag(i) == 41)
      && (i.ConfidentialMintBurnExtension? ==> Tag(i) == 42) && (i.ScaledUiAmountExtension? ==> Tag(i) == 43)
      && (i.PausableExtension? ==> Tag(i) == 44)
  {
    hide Encode, PayloadOf;
  }

  /** the code of each authority, */
  lemma AuthorityNumbers(a: AuthorityType)
    ensures
      && (a.MintTokens? ==> AuthorityCode(a) == 0) && (a.FreezeAccount? ==> AuthorityCode(a) == 1)
      && (a.AccountOwner? ==> AuthorityCode(a) == 2) && (a.CloseAccount? ==> AuthorityCode(a) == 3)
      && (a.TransferFeeConfig? ==> AuthorityCode(a) == 4) && (a.WithheldWithdraw? ==> AuthorityCode(a) == 5)
      && (a.CloseMint? ==> AuthorityCode(a) == 6) && (a.InterestRate? ==> AuthorityCode(a) == 7)
      && (a.PermanentDelegate? ==> AuthorityCode(a) == 8)
      && (a.ConfidentialTransferMint? ==> AuthorityCode(a) == 9)
      && (a.TransferHookProgramId? ==> AuthorityCode(a) == 10)
      && (a.ConfidentialTransferFeeConfig? ==> AuthorityCode(a) == 11)
      && (a.MetadataPointer? ==> AuthorityCode(a) == 12) && (a.GroupPointer? ==> AuthorityCode(a) == 13)
      && (a.GroupMemberPointer? ==> AuthorityCode(a) == 14) && (a.ScaledUiAmount? ==> AuthorityCode(a) == 15)
      && (a.Pause? ==> AuthorityCode(a) == 16)
  {
  }

  /** and that of each extension. */
  lemma ExtensionNumbers(e: ExtensionType)
    ensures
      && (e.Uninitialized? ==> ExtensionCode(e) == 0) && (e.TransferFeeConfig? ==> ExtensionCode(e) == 1)
      && (e.TransferFeeAmount? ==> ExtensionCode(e) == 2) && (e.MintCloseAuthority? ==> ExtensionCode(e) == 3)
      && (e.ConfidentialTransferMint? ==> ExtensionCode(e) == 4)
      && (e.ConfidentialTransferAccount? ==> ExtensionCode(e) == 5)
      && (e.DefaultAccountState? ==> ExtensionCode(e) == 6) && (e.ImmutableOwner? ==> ExtensionCode(e) == 7)
      && (e.MemoTransfer? ==> ExtensionCode(e) == 8) && (e.NonTransferable? ==> ExtensionCode(e) == 9)
      && (e.InterestBearingConfig? ==> ExtensionCode(e) == 10) && (e.CpiGuard? ==> ExtensionCode(e) == 11)
      && (e.PermanentDelegate? ==> ExtensionCode(e) == 12)
      && (e.NonTransferableAccount? ==> ExtensionCode(e) == 13) && (e.TransferHook? ==> ExtensionCode(e) == 14)
      && (e.TransferHookAccount? ==> ExtensionCode(e) == 15)
      && (e.ConfidentialTransferFeeConfig? ==> ExtensionCode(e) == 16)
      && (e.ConfidentialTransferFeeAmount? ==> ExtensionCode(e) == 17)
      && (e.MetadataPointer? ==> ExtensionCode(e) == 18) && (e.TokenMetadata? ==> ExtensionCode(e) == 19)
      && (e.GroupPointer? ==> ExtensionCode(e) == 20) && (e.TokenGroup? ==> ExtensionCode(e) == 21)
      && (e.GroupMemberPointer? ==> ExtensionCode(e) == 22) && (e.TokenGroupMember? ==> ExtensionCode(e) == 23)
      && (e.ConfidentialMintBurn? ==> ExtensionCode(e) == 24) && (e.ScaledUiAmount? ==> ExtensionCode(e) == 25)
      && (e.Pausable? ==> ExtensionCode(e) == 26) && (e.PausableAccount? ==> ExtensionCode(e) == 27)
  {
  }

  /** An optional key: 1 and the key, or 0 alone, up to the end. */
  predicate OptionEnds(b: seq<u8>, at: nat, option: Option<Pubkey>) {
    if option.Some? then |b| == at + 33 && b[at] == 1 && b[at + 1..] == KeyBytes(option.value)
    else |b| == at + 1 && b[at] == 0
  }

  /** The bytes behind the first, for each layout. */
  predicate LaidOut(b: seq<u8>, p: Payload) {
    && b != []
    && match p
       case Nothing => |b| == 1
       case MintTerms(decimals, authority, freezeAuthority) =>
         |b| > 34 && b[1] == decimals && b[2..34] == KeyBytes(authority) && OptionEnds(b, 34, freezeAuthority)
       case Required(m) => b[1..] == [m]
       case Amount(amount) => Spells64(b[1..], amount)
       case Checked(amount, decimals) => |b| == 10 && Spells64(b[1..9], amount) && b[9] == decimals
       case Key(key) => b[1..] == KeyBytes(key)
       case MaybeKey(key) => OptionEnds(b, 1, key)
       case NewAuthority(kind, next) => |b| > 2 && b[1] == AuthorityCode(kind) && OptionEnds(b, 2, next)
       case Types(types) => TypesSpelled(b[1..], types)
       case Text(text) => b[1..] == text
  }

  /** Two bytes for each extension type, the low one first. */
  predicate TypesSpelled(b: seq<u8>, types: seq<ExtensionType>) {
    && |b| == 2 * |types|
    && forall k :: 0 <= k < |types| ==>
         ExtensionCode(types[k]) == (b[2 * k] as int) + 0x100 * (b[2 * k + 1] as int)
  }

  lemma {:induction false} EncodedTypesSpell(types: seq<ExtensionType>)
    ensures TypesSpelled(EncodeTypes(types), types)
  {
    if types != [] {
      EncodedTypesSpell(types[1..]);
      U16BytesSpell(ExtensionCode(types[0]));
      var first, others := U16Bytes(ExtensionCode(types[0])), EncodeTypes(types[1..]);
      hide U16Bytes, ExtensionCode;
      forall k | 0 <= k < |types|
        ensures ExtensionCode(types[k])
             == ((first + others)[2 * k] as int) + 0x100 * ((first + others)[2 * k + 1] as int)
      {
        if k > 0 {
          assert types[k] == types[1..][k - 1];
          assert (first + others)[2 * k] == others[2 * (k - 1)];
          assert (first + others)[2 * k + 1] == others[2 * (k - 1) + 1];
        }
      }
    }
  }

  lemma OptionLayout(head: seq<u8>, option: Option<Pubkey>)
    ensures OptionEnds(head + OptionBytes(option), |head|, option)
  {
    hide KeyBytes;
    if option.Some? {
      assert (head + OptionBytes(option))[|head| + 1..] == KeyBytes(option.value);
    }
  }

  lemma MintTermsLayout(tag: u8, decimals: u8, mintAuthority: Pubkey, freezeAuthority: Option<Pubkey>)
    ensures var b := [tag] + Encode(MintTerms(decimals, mintAuthority, freezeAuthority));
            |b| > 34 && b[1] == decimals && b[2..34] == KeyBytes(mintAuthority) && OptionEnds(b, 34, freezeAuthority)
  {
    hide KeyBytes, OptionBytes, OptionEnds;
    var head := [tag] + [decimals] + KeyBytes(mintAuthority);
    OptionLayout(head, freezeAuthority);
    assert [tag] + Encode(MintTerms(decimals, mintAuthority, freezeAuthority)) == head + OptionBytes(freezeAuthority);
  }

  lemma NewAuthorityLayout(tag: u8, kind: AuthorityType, authority: Option<Pubkey>)
    ensures var b := [tag] + Encode(NewAuthority(kind, authority));
            |b| > 2 && b[1] == AuthorityCode(kind) && OptionEnds(b, 2, authority)
  {
    hide OptionBytes, OptionEnds, AuthorityCode;
    OptionLayout([tag] + [AuthorityCode(kind)], authority);
    assert [tag] + Encode(NewAuthority(kind, authority)) == [tag] + [AuthorityCode(kind)] + OptionBytes(authority);
  }

  lemma AmountLayout(tag: u8, amount: u64, decimals: u8)
    ensures var b := [tag] + Encode(Amount(amount)); Spells64(b[1..], amount)
    ensures var b := [tag] + Encode(Checked(amount, decimals));
            |b| == 10 && Spells64(b[1..9], amount) && b[9] == decimals
  {
    U64BytesSpell(amount);
    hide U64Bytes, Spells64;
    assert ([tag] + Encode(Amount(amount)))[1..] == U64Bytes(amount);
    assert ([tag] + Encode(Checked(amount, decimals)))[1..9] == U64Bytes(amount);
  }

  /** Every instruction is packed so. */
  lemma PackedLayout(i: TokenInstruction)
    ensures LaidOut(Packed(i), PayloadOf(i))
  {
    PayloadLayout(Tag(i), PayloadOf(i));
    hide LaidOut, Encode, Tag, PayloadOf;
  }

  lemma PayloadLayout(tag: u8, p: Payload)
    ensures LaidOut([tag] + Encode(p), p)
  {
    match p {
      case MintTerms(decimals, mintAuthority, freezeAuthority) =>
        MintTermsLayout(tag, decimals, mintAuthority, freezeAuthority);
      case NewAuthority(kind, authority) =>
        NewAuthorityLayout(tag, kind, authority);
      case Amount(amount) =>
        AmountLayout(tag, amount, 0);
      case Checked(amount, decimals) =>
        AmountLayout(tag, amount, decimals);
      case MaybeKey(option) =>
        OptionLayout([tag], option);
      case Types(types) =>
        EncodedTypesSpell(types);
      case _ =>
    }
    hide KeyBytes, U64Bytes, OptionBytes, EncodeTypes, Spells64, OptionEnds, TypesSpelled, AuthorityCode;
    assert ([tag] + Encode(p))[1..] == Encode(p);
  }
}
