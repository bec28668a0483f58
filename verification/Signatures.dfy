/** What a passing `validate_owner` is worth: whose signature stands behind it. */
module Signatures {
  import opened Prelude
  import opened Ledger
  import opened Multisig
  import opened Totals
  import opened Machine
  import opened Invariants
  import opened H = Handlers
  import opened Events

  /** An account of the program with the size of a multisignature. */
  predicate IsMultisigCell(c: Cell) {
    Ours(c) && c.data.Length() == MULTISIG_LEN
  }

  /** The key's own listing carries a signature, and its account is no multisignature. */
  predicate SignsAlone(l: Ledger, key: Pubkey, authority: Meta) {
    authority == Meta(key, true) && !IsMultisigCell(At(l, key))
  }

  /** The keys a multisignature account stores. */
  function StoredKeys(d: Data): seq<Pubkey>
    requires d.MultisigData?
  {
    if d.n <= MAX_SIGNERS then d.signers[..d.n] else d.signers
  }

  /** As many keys stored in the multisignature as it requires have really signed. */
  ghost predicate SignJointly(l: Ledger, key: Pubkey, signers: seq<Meta>) {
    && Ours(At(l, key)) && At(l, key).data.MultisigData?
    && exists who: set<nat> :: |who| == At(l, key).data.m && AllSigned(StoredKeys(At(l, key).data), who, signers)
  }

  /** A zero-filled account of the program with the size of a multisignature: read as one, it
      stores no keys and requires none. */
  predicate IsUnclaimed(c: Cell) {
    IsMultisigCell(c) && c.data.Blank?
  }

  /** What a passing check vouches for. */
  ghost predicate Vouched(l: Ledger, key: Pubkey, authority: Meta, signers: seq<Meta>) {
    && authority.key == key
    && (SignsAlone(l, key, authority) || SignJointly(l, key, signers) || IsUnclaimed(At(l, key)))
  }

  /** The multisignature accepts these signers. */
  predicate AcceptsJointly(l: Ledger, key: Pubkey, signers: seq<Meta>) {
    var c := At(l, key);
    && Ours(c) && c.data.MultisigData? && c.data.n <= MAX_SIGNERS
    && Accepts(c.data.signers[..c.data.n], c.data.m, signers)
  }

  /** In every reachable ledger the check passes in three cases and no other: the key signs for
      itself; or it is a multisignature, and one or more of its stored keys, as many as it
      requires, sign; or it is an unclaimed account, and then nobody needs to sign. */
  lemma ValidateOwnerExact(l: Ledger, key: Pubkey, authority: Meta, signers: seq<Meta>)
    requires Inv(l)
    ensures ValidateOwner(l, key, authority, signers).Pass?
       <==> && authority.key == key
            && (SignsAlone(l, key, authority) || AcceptsJointly(l, key, signers) || IsUnclaimed(At(l, key)))
    ensures AcceptsJointly(l, key, signers) ==> SignJointly(l, key, signers) && At(l, key).data.m >= 1
  {
    assert CellOk(At(l, key));
    AcceptedSign(l, key, signers);
  }

  lemma AcceptedSign(l: Ledger, key: Pubkey, signers: seq<Meta>)
    ensures AcceptsJointly(l, key, signers) ==> SignJointly(l, key, signers)
  {
    if AcceptsJointly(l, key, signers) {
      var d := At(l, key).data;
      AcceptedMeansSigned(d.signers[..d.n], d.m, signers);
    }
  }

  /** In any ledger, a passing check is vouched for. */
  lemma PassIsVouched(l: Ledger, key: Pubkey, authority: Meta, signers: seq<Meta>)
    requires ValidateOwner(l, key, authority, signers).Pass?
    ensures Vouched(l, key, authority, signers)
  {
    AcceptedSign(l, key, signers);
  }

  /** So somebody among the listed accounts signed, unless the key is an unclaimed account. */
  lemma SomebodySigned(l: Ledger, key: Pubkey, authority: Meta, signers: seq<Meta>)
    requires Inv(l) && ValidateOwner(l, key, authority, signers).Pass? && !IsUnclaimed(At(l, key))
    ensures exists x :: x in [authority] + signers && x.signer
  {
    ValidateOwnerExact(l, key, authority, signers);
    if SignsAlone(l, key, authority) {
      assert authority in [authority] + signers;
    } else {
      var d := At(l, key).data;
      var who: set<nat> :| |who| == d.m && AllSigned(StoredKeys(d), who, signers);
      var p :| p in who;
      assert Meta(StoredKeys(d)[p], true) in [authority] + signers;
    }
  }

  /** `validate_owner` passes for the key in this instruction, and this is whose word it is. */
  ghost predicate OnTheWordOf(l: Ledger, ix: Instruction, metas: seq<Meta>, key: Pubkey) {
    Authorized(l, ix, metas, key) && Vouched(l, key, Authority(ix, metas), Signers(ix, metas))
  }

  lemma AuthorizedIsWord(l: Ledger, ix: Instruction, metas: seq<Meta>, key: Pubkey)
    requires Authorized(l, ix, metas, key)
    ensures OnTheWordOf(l, ix, metas, key)
  {
    PassIsVouched(l, key, Authority(ix, metas), Signers(ix, metas));
  }

  // ------------------------------------------------------------ unclaimed accounts

  /** A mint 1 with five tokens, all in account 2, whose owner 9 is an unclaimed account. */
  function UnclaimedLedger(): Ledger {
    var held := Account(1, 9, 5, None, false, None, 0, None, PLAIN_ACCOUNT);
    map[NATIVE_MINT := Cell(0, TOKEN_PROGRAM, MintData(MINT_LEN, Mint(None, 0, 9, None, PLAIN_MINT))),
        1 := Cell(0, TOKEN_PROGRAM, MintData(MINT_LEN, Mint(None, 5, 0, None, PLAIN_MINT))),
        2 := Cell(0, TOKEN_PROGRAM, AccountData(ACCOUNT_LEN, held)),
        9 := Cell(7, TOKEN_PROGRAM, Blank(MULTISIG_LEN))]
  }

  lemma UnclaimedLedgerInv()
    ensures Inv(UnclaimedLedger())
  {
    var l := UnclaimedLedger();
    var rest := l - {2};
    assert l == rest[2 := l[2]];
    forall m: Pubkey ensures m != NATIVE_MINT ==> Conserved(l, m) {
      AllZero(rest, Tokens(m));
      TotalUpdate(rest, Tokens(m), 2, l[2]);
    }
    var poor := l - {9};
    assert l == poor[9 := l[9]];
    AllZero(poor, Lamports);
    TotalUpdate(poor, Lamports, 9, l[9]);
  }

  /** "Somebody signed" is false without that exception: an account owned by an unclaimed account
      is debited by a list without any signer, */
  lemma UnclaimedOwnerNeedsNoSignature(env: Env) returns (l: Ledger, metas: seq<Meta>)
    ensures Inv(l) && IsOpen(l, 2) && IsUnclaimed(At(l, AccountAt(l, 2).owner)) && AccountAt(l, 2).amount == 5
    ensures forall x :: x in metas ==> !x.signer
    ensures var done := Execute(l, Instruction.Burn(5, None), metas, env);
            done.Ok? && IsOpen(done.value, 2) && AccountAt(done.value, 2).amount == 0
  {
    l := UnclaimedLedger();
    UnclaimedLedgerInv();
    metas := [Meta(2, false), Meta(1, false), Meta(9, false)];
    assert H.Burn(l, metas, 5, None, env).Ok?;
  }

  /** and the unclaimed account itself gives up its excess lamports the same way. */
  lemma UnclaimedAccountNeedsNoSignature(env: Env) returns (l: Ledger, metas: seq<Meta>)
    requires env.rent(MULTISIG_LEN) <= 7
    ensures Inv(l) && IsUnclaimed(At(l, 9)) && At(l, 9).lamports == 7
    ensures forall x :: x in metas ==> !x.signer
    ensures var done := Execute(l, WithdrawExcess, metas, env);
            done.Ok? && At(done.value, 9).lamports == env.rent(MULTISIG_LEN)
  {
    l := UnclaimedLedger();
    UnclaimedLedgerInv();
    metas := [Meta(9, false), Meta(4, false), Meta(9, false)];
    assert H.WithdrawExcess(l, metas, env).Ok?;
  }
}
