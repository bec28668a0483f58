/** The decoder the program's entry point uses: fixed-size views of the instruction bytes. */
module PodInstruction {
  import opened Prelude
  import opened Bytes
  import opened InstructionCodec

  function DecodeInstructionType(input: seq<u8>): Result<u8> {
    if input == [] then Err(InvalidInstructionData)
    else if input[0] > LAST_TAG then Err(InvalidInstruction)
    else Ok(input[0])
  }

  /** The bytes behind the tag, when they are exactly as many as the type takes. */
  function DecodeInstructionData(input: seq<u8>, size: nat): Result<seq<u8>> {
    if |input| != size + 1 then Err(InvalidInstructionData) else Ok(input[1..])
  }

  function PodPubkeyOption(input: seq<u8>): Result<Option<Pubkey>> {
    if input != [] && input[0] == 0 then Ok(None)
    else if input != [] && input[0] == 1 then
      if |input| - 1 < 32 then Err(InvalidInstructionData) else Ok(Some(ReadKey(input[1..33])))
    else Err(InvalidInstructionData)
  }

  /** Fixed-size data and an optional key behind it; bytes behind the key are ignored. */
  function DecodeInstructionDataWithKeyOption(input: seq<u8>, size: nat): Result<(seq<u8>, Option<Pubkey>)> {
    if |input| < size + 1 then Err(InvalidInstructionData)
    else
      var option :- PodPubkeyOption(input[size + 1..]);
      Ok((input[1..size + 1], option))
  }

  /** The data types of the five layouts: `InitializeMintData`, `InitializeMultisigData`,
      `AmountData`, `AmountCheckedData`, `SetAuthorityData`; the rest as in the dispatcher. */
  function PodPayload(shape: PayloadShape, input: seq<u8>, utf8: seq<u8> -> bool): Result<Payload>
    requires input != []
  {
    match shape
    case NothingShape => Ok(Nothing)
    case MintTermsShape =>
      var (data, freezeAuthority) :- DecodeInstructionDataWithKeyOption(input, 33);
      Ok(MintTerms(data[0], ReadKey(data[1..33]), freezeAuthority))
    case RequiredShape => var data :- DecodeInstructionData(input, 1); Ok(Required(data[0]))
    case AmountShape => var data :- DecodeInstructionData(input, 8); Ok(Amount(ReadU64(data)))
    case CheckedShape =>
      var data :- DecodeInstructionData(input, 9);
      Ok(Checked(ReadU64(data[..8]), data[8]))
    case KeyShape => var data :- DecodeInstructionData(input, 32); Ok(Key(ReadKey(data)))
    case MaybeKeyShape =>
      var (_, option) :- DecodeInstructionDataWithKeyOption(input, 0);
      Ok(MaybeKey(option))
    case NewAuthorityShape =>
      var (data, authority) :- DecodeInstructionDataWithKeyOption(input, 1);
      var kind :- AuthorityOf(data[0]);
      Ok(NewAuthority(kind, authority))
    case TypesShape => var types :- DecodeTypes(input[1..]); Ok(Types(types))
    case TextShape => if utf8(input[1..]) then Ok(Text(input[1..])) else Err(InvalidInstruction)
  }

  function PodDecoded(input: seq<u8>, utf8: seq<u8> -> bool): Result<TokenInstruction> {
    var tag :- DecodeInstructionType(input);
    var p :- PodPayload(ShapeOf(tag), input, utf8);
    Ok(Assemble(tag, p))
  }

  /** Layouts the dispatcher takes only at their exact length, with that length. */
  function FixedSize(shape: PayloadShape): Option<nat> {
    match shape
    case RequiredShape => Some(1)
    case AmountShape => Some(8)
    case CheckedShape => Some(9)
    case KeyShape => Some(32)
    case _ => None
  }

  lemma KeyOptionsAgree(input: seq<u8>)
    ensures PodPubkeyOption(input).Ok? <==> UnpackPubkeyOption(input).Ok?
    ensures PodPubkeyOption(input).Ok? ==> PodPubkeyOption(input).value == UnpackPubkeyOption(input).value.0
  {
    hide LeValue, LeBytes, Power256, KeyBytes;
    if |input| >= 33 {
      assert input[1..][..32] == input[1..33];
    }
  }

  lemma PodPayloadAgrees(shape: PayloadShape, input: seq<u8>, utf8: seq<u8> -> bool)
    requires input != []
    ensures var pod, full := PodPayload(shape, input, utf8), DecodePayload(shape, input[1..], utf8);
            var size := FixedSize(shape);
            && (pod.Ok? <==> full.Ok? && (size.Some? ==> |input| == size.value + 1))
            && (pod.Ok? ==> pod == full)
  {
    hide LeValue, LeBytes, Power256, KeyBytes, OptionBytes, U64Bytes, DecodeTypes, AuthorityOf,
         PodPubkeyOption, UnpackPubkeyOption;
    var rest := input[1..];
    match shape {
      case MintTermsShape =>
        if |input| >= 34 {
          KeyOptionsAgree(input[34..]);
          assert rest[1..][32..] == input[34..];
          assert rest[1..][..32] == input[1..34][1..33];
        }
      case AmountShape =>
        assert |rest| == 8 ==> rest[..8] == rest;
      case KeyShape =>
        assert |rest| == 32 ==> rest[..32] == rest;
      case MaybeKeyShape =>
        KeyOptionsAgree(rest);
        assert input[1..] == rest;
      case NewAuthorityShape =>
        if |input| >= 2 {
          KeyOptionsAgree(input[2..]);
          assert rest[1..] == input[2..] && input[1..2][0] == rest[0];
        }
      case _ =>
    }
  }

  lemma FixedSizes(p: Payload)
    ensures FixedSize(p.Shape()).Some? ==> |Encode(p)| == FixedSize(p.Shape()).value
  {
  }

  /** The dispatcher's decoder accepts what `unpack` accepts, with the same fields, except that the
      layouts of fixed size must not be followed by further bytes. */
  lemma PodDecodedExact(input: seq<u8>, i: TokenInstruction, utf8: seq<u8> -> bool)
    ensures PodDecoded(input, utf8) == Ok(i)
       <==> && Unpacked(input, utf8) == Ok(i)
            && (FixedSize(PayloadOf(i).Shape()).Some? ==> input == Packed(i))
  {
    hide PodPayload, DecodePayload, ShapeOf, Assemble, Encode, Tag, PayloadOf;
    if input != [] && input[0] <= LAST_TAG {
      var shape := ShapeOf(input[0]);
      PodPayloadAgrees(shape, input, utf8);
      if Unpacked(input, utf8) == Ok(i) {
        var p := DecodePayload(shape, input[1..], utf8).value;
        DecodeIsSound(shape, input[1..], utf8);
        Assembled(input[0], p);
        FixedSizes(p);
        assert input == [input[0]] + input[1..];
        assert |input[1..]| == |Encode(p)| ==> input[1..] == Encode(p);
      }
    }
  }

  /** Whatever the packer writes for a well-formed instruction, the dispatcher reads back. */
  lemma PodAcceptsPacked(i: TokenInstruction, utf8: seq<u8> -> bool)
    requires WellFormed(i, utf8)
    ensures PodDecoded(Packed(i), utf8) == Ok(i)
  {
    hide Packed, Unpacked, PodDecoded;
    assert Packed(i) + [] == Packed(i);
    RoundTrip(i, [], utf8);
    PodDecodedExact(Packed(i), i, utf8);
  }

  /** With an appended byte the two decoders part exactly on the fixed-size layouts. */
  lemma TrailingByteTells(i: TokenInstruction, extra: u8, utf8: seq<u8> -> bool)
    requires WellFormed(i, utf8) && Tag(i) !in {21, 24, 29}
    ensures Unpacked(Packed(i) + [extra], utf8) == Ok(i)
    ensures PodDecoded(Packed(i) + [extra], utf8).Ok? <==> FixedSize(PayloadOf(i).Shape()).None?
  {
    hide Packed, Unpacked, PodDecoded, Tag, PayloadOf;
    var input := Packed(i) + [extra];
    RoundTrip(i, [extra], utf8);
    PodDecodedExact(input, i, utf8);
    if PodDecoded(input, utf8).Ok? {
      PodDecodedExact(input, PodDecoded(input, utf8).value, utf8);
    }
  }
}
