/** What holds in every reachable ledger, and why each step keeps it. */
module Invariants {
  import opened Prelude
  import opened Ledger
  import opened Multisig
  import opened Totals
  import opened Machine
  import opened H = Handlers
  import opened X = Extensions
  import opened Effects

  predicate FeeOk(ext: MintExt) {
    ext.fee.Some? ==>
      && ext.fee.value.older.basisPoints <= 10_000
      && ext.fee.value.newer.basisPoints <= 10_000
  }

  /** A token account is native exactly when its mint is the native mint, and a native account
      has the lamports for its balance on top of its reserve. */
  predicate AccountOk(a: Account, lamports: u64) {
    && (a.native.Some? <==> a.mint == NATIVE_MINT)
    && (a.native.Some? ==> a.amount + a.native.value <= lamports && !a.frozen)
    && (a.delegate.None? ==> a.delegatedAmount == 0)
  }

  predicate CellOk(c: Cell) {
    Ours(c) ==>
      match c.data
      case AccountData(len, a) => len >= ACCOUNT_LEN && len != MULTISIG_LEN && AccountOk(a, c.lamports)
      case MintData(len, m) => len >= MINT_LEN && len != MULTISIG_LEN && FeeOk(m.ext)
      case StagedMint(_, ext) => FeeOk(ext) && (ext.fee.Some? ==> ext.fee.value.withheld == 0)
      case StagedAccount(_, ext) => ext.withheld.None?
      case MultisigData(m, n, _) => 1 <= m <= MAX_SIGNERS && 1 <= n <= MAX_SIGNERS
      case Blank(_) => true
  }

  /** The native mint exists, carries no extension and has no authority. */
  predicate NativeMintCell(c: Cell) {
    Ours(c) && c.data.MintData? && c.data.mint.ext == PLAIN_MINT && c.data.mint.authority.None?
  }

  function SupplyOf(c: Cell): nat {
    if Ours(c) && c.data.MintData? then c.data.mint.supply else 0
  }

  function HeldByMint(c: Cell): nat {
    if Ours(c) && c.data.MintData? then c.data.mint.Withheld() else 0
  }

  /** Supply is conserved: what accounts of `m` hold, plus the fees collected in the mint, is
      the supply the mint records; without a live mint it is nothing. */
  ghost predicate Conserved(l: Ledger, m: Pubkey) {
    Total(l, Tokens(m)) + HeldByMint(At(l, m)) == SupplyOf(At(l, m))
  }

  ghost predicate Inv(l: Ledger) {
    && Total(l, Lamports) <= U64_MAX
    && (forall k: Pubkey :: CellOk(At(l, k)))
    && (forall m: Pubkey :: m != NATIVE_MINT ==> Conserved(l, m))
    && NativeMintCell(At(l, NATIVE_MINT))
  }

  /** The next ledger is in order and holds the same lamports. */
  ghost predicate Keeps(l: Ledger, l': Ledger) {
    Inv(l') && Total(l', Lamports) == Total(l, Lamports)
  }

  /** The share of cell `k` in the conservation equation of mint `m`. */
  function Share(k: Pubkey, c: Cell, m: Pubkey): int {
    Weigh(c, Tokens(m)) + if k == m then HeldByMint(c) - SupplyOf(c) else 0
  }

  /** Writing `c` at `k` is harmless on its own account. */
  predicate WriteOk(k: Pubkey, c: Cell) {
    CellOk(c) && (k == NATIVE_MINT ==> NativeMintCell(c))
  }

  lemma OneWrite(l: Ledger, k: Pubkey, c: Cell)
    requires Inv(l) && WriteOk(k, c) && c.lamports == At(l, k).lamports
    requires forall m: Pubkey :: m != NATIVE_MINT ==> Share(k, c, m) == Share(k, At(l, k), m)
    ensures Keeps(l, l[k := c])
  {
    var l1 := l[k := c];
    TotalUpdate(l, Lamports, k, c);
    forall m: Pubkey ensures CellOk(At(l1, m)) && (m != NATIVE_MINT ==> Conserved(l1, m)) {
      assert CellOk(At(l, m));
      if m != NATIVE_MINT {
        TotalUpdate(l, Tokens(m), k, c);
        assert Conserved(l, m);
        assert Share(k, c, m) == Share(k, At(l, k), m);
      }
    }
  }

  /** Rewriting an account without touching its mint, balance, reserve or withheld fee. */
  lemma AccountWrite(l: Ledger, k: Pubkey, a': Account)
    requires Inv(l) && UnpackAccount(At(l, k).data).Ok?
    requires var a := At(l, k).data.account;
             && a'.mint == a.mint && a'.amount == a.amount && a'.native == a.native
             && a'.Withheld() == a.Withheld()
             && (a.native.Some? ==> a'.frozen == a.frozen)
             && (a'.delegate.None? ==>
                   a'.delegatedAmount == 0 || (a.delegate.None? && a'.delegatedAmount == a.delegatedAmount))
    ensures Keeps(l, WithAccount(l, k, a'))
  {
    assert CellOk(At(l, k));
    OneWrite(l, k, At(WithAccount(l, k, a'), k));
  }

  /** Rewriting a mint that is not the native one without touching its supply or withheld fees. */
  lemma MintWrite(l: Ledger, k: Pubkey, mint: Mint)
    requires Inv(l) && UnpackMint(At(l, k).data).Ok?
    requires var before := At(l, k).data.mint;
             && mint.supply == before.supply && mint.Withheld() == before.Withheld()
             && (FeeOk(before.ext) ==> FeeOk(mint.ext))
             && (k == NATIVE_MINT ==> mint.ext == PLAIN_MINT && mint.authority.None?)
    ensures Keeps(l, WithMint(l, k, mint))
  {
    assert CellOk(At(l, k));
    OneWrite(l, k, At(WithMint(l, k, mint), k));
  }

  lemma TwoWrites(l: Ledger, j: Pubkey, b: Cell, k: Pubkey, c: Cell)
    requires Inv(l) && j != k && WriteOk(j, b) && WriteOk(k, c)
    requires b.lamports + c.lamports == At(l, j).lamports + At(l, k).lamports
    requires forall m: Pubkey :: m != NATIVE_MINT ==>
               Share(j, b, m) + Share(k, c, m) == Share(j, At(l, j), m) + Share(k, At(l, k), m)
    ensures Keeps(l, l[j := b][k := c])
  {
    var l1 := l[j := b];
    var l2 := l1[k := c];
    TotalUpdate(l, Lamports, j, b);
    TotalUpdate(l1, Lamports, k, c);
    assert At(l1, k) == At(l, k);
    forall m: Pubkey ensures CellOk(At(l2, m)) && (m != NATIVE_MINT ==> Conserved(l2, m)) {
      assert CellOk(At(l, m));
      if m != NATIVE_MINT {
        TotalUpdate(l, Tokens(m), j, b);
        TotalUpdate(l1, Tokens(m), k, c);
        assert Conserved(l, m);
        assert Share(j, b, m) + Share(k, c, m) == Share(j, At(l, j), m) + Share(k, At(l, k), m);
      }
    }
  }

  // ------------------------------------------------------------ one lemma per instruction

  lemma InitializeMintInv(l: Ledger, metas: seq<Meta>, d: u8, a: Pubkey, f: Option<Pubkey>, r: bool, env: Env)
    requires Inv(l) && H.InitializeMint(l, metas, d, a, f, r, env).Ok?
    ensures Keeps(l, H.InitializeMint(l, metas, d, a, f, r, env).value)
  {
    var k := metas[0].key;
    var l' := H.InitializeMint(l, metas, d, a, f, r, env).value;
    assert CellOk(At(l, k));
    OneWrite(l, k, At(l', k));
  }

  lemma InitializeAccountInv(l: Ledger, metas: seq<Meta>, o: Option<Pubkey>, r: bool, env: Env)
    requires Inv(l) && H.InitializeAccount(l, metas, o, r, env).Ok?
    ensures Keeps(l, H.InitializeAccount(l, metas, o, r, env).value)
  {
    var k := metas[0].key;
    var l' := H.InitializeAccount(l, metas, o, r, env).value;
    assert CellOk(At(l, k));
    OneWrite(l, k, At(l', k));
  }

  lemma InitializeMultisigInv(l: Ledger, metas: seq<Meta>, m: u8, r: bool, env: Env)
    requires Inv(l) && H.InitializeMultisig(l, metas, m, r, env).Ok?
    ensures Keeps(l, H.InitializeMultisig(l, metas, m, r, env).value)
  {
    var k := metas[0].key;
    assert CellOk(At(l, k));
    OneWrite(l, k, At(H.InitializeMultisig(l, metas, m, r, env).value, k));
  }

  lemma ApproveInv(l: Ledger, metas: seq<Meta>, n: u64, d: Option<u8>, env: Env)
    requires Inv(l) && H.Approve(l, metas, n, d, env).Ok?
    ensures Keeps(l, H.Approve(l, metas, n, d, env).value)
  {
    var k := metas[0].key;
    assert CellOk(At(l, k));
    AccountWrite(l, k, At(H.Approve(l, metas, n, d, env).value, k).data.account);
  }

  lemma RevokeInv(l: Ledger, metas: seq<Meta>)
    requires Inv(l) && H.Revoke(l, metas).Ok?
    ensures Keeps(l, H.Revoke(l, metas).value)
  {
    var k := metas[0].key;
    assert CellOk(At(l, k));
    AccountWrite(l, k, At(H.Revoke(l, metas).value, k).data.account);
  }

  lemma SetAuthorityInv(l: Ledger, metas: seq<Meta>, kind: AuthorityType, next: Option<Pubkey>, env: Env)
    requires Inv(l) && H.SetAuthority(l, metas, kind, next, env).Ok?
    ensures Keeps(l, H.SetAuthority(l, metas, kind, next, env).value)
  {
    var k := metas[0].key;
    match UnpackAccount(At(l, k).data) {
      case Ok(a) => SetAccountAuthorityInv(l, k, a, metas[1], metas[2..], kind, next, env);
      case Err(_) =>
        SetMintAuthorityInv(l, k, UnpackMint(At(l, k).data).value, metas[1], metas[2..], kind, next);
    }
  }

  lemma SetAccountAuthorityInv(l: Ledger, k: Pubkey, a: Account, authority: Meta, signers: seq<Meta>,
                               kind: AuthorityType, next: Option<Pubkey>, env: Env)
    requires Inv(l) && UnpackAccount(At(l, k).data) == Ok(a)
    requires SetAccountAuthority(l, a, authority, signers, kind, next, env).Ok?
    ensures Keeps(l, WithAccount(l, k, SetAccountAuthority(l, a, authority, signers, kind, next, env).value))
  {
    SetAccountAuthorityEffect(l, a, authority, signers, kind, next, env);
    AccountWrite(l, k, SetAccountAuthority(l, a, authority, signers, kind, next, env).value);
  }

  lemma SetMintAuthorityInv(l: Ledger, k: Pubkey, mint: Mint, authority: Meta, signers: seq<Meta>,
                            kind: AuthorityType, next: Option<Pubkey>)
    requires Inv(l) && UnpackMint(At(l, k).data) == Ok(mint)
    requires SetMintAuthority(l, mint, authority, signers, kind, next).Ok?
    ensures Keeps(l, WithMint(l, k, SetMintAuthority(l, mint, authority, signers, kind, next).value))
  {
    SetMintAuthorityEffect(l, mint, authority, signers, kind, next);
    MintWrite(l, k, SetMintAuthority(l, mint, authority, signers, kind, next).value);
  }

  lemma ToggleFreezeInv(l: Ledger, metas: seq<Meta>, freeze: bool)
    requires Inv(l) && H.ToggleFreeze(l, metas, freeze).Ok?
    ensures Keeps(l, H.ToggleFreeze(l, metas, freeze).value)
  {
    var k := metas[0].key;
    assert CellOk(At(l, k));
    AccountWrite(l, k, At(H.ToggleFreeze(l, metas, freeze).value, k).data.account);
  }

  lemma SyncNativeInv(l: Ledger, metas: seq<Meta>)
    requires Inv(l) && H.SyncNative(l, metas).Ok?
    ensures Keeps(l, H.SyncNative(l, metas).value)
  {
    var k := metas[0].key;
    assert CellOk(At(l, k));
    OneWrite(l, k, At(H.SyncNative(l, metas).value, k));
  }

  /** A transfer keeps both cells in order: native balances stay backed. */
  lemma MovedCells(l: Ledger, l': Ledger, source: Pubkey, destination: Pubkey,
                   a: Account, s: Account, d: Account, n: u64, fee: u64)
    requires Moved(l, l', source, destination, a, s, d, n, fee)
    requires s == a || (n <= a.delegatedAmount && s == UseAllowance(a, n))
    requires CellOk(At(l, source)) && CellOk(At(l, destination))
    ensures CellOk(At(l', source)) && CellOk(At(l', destination))
  {
  }

  /** What a credit adds to the receiver, balance and withheld fee together. */
  lemma CreditAdds(d: Account, n: u64, fee: u64)
    requires Credit(d, n, fee).Ok?
    ensures Credit(d, n, fee).value.mint == d.mint
    ensures Credit(d, n, fee).value.amount + Credit(d, n, fee).value.Withheld() == d.amount + d.Withheld() + n
  {
  }

  lemma ShareOfRewritten(k: Pubkey, c: Cell, c': Cell, a: Account, lamports: int, m: Pubkey)
    requires Ours(c) && Rewritten(c, c', a, lamports)
    ensures Share(k, c', m) == if a.mint == m then a.amount + a.Withheld() else 0
  {
  }

  /** What leaves the source arrives at the destination, partly as a withheld fee. */
  lemma MovedShares(l: Ledger, l': Ledger, source: Pubkey, destination: Pubkey,
                    a: Account, s: Account, d: Account, n: u64, fee: u64, m: Pubkey)
    requires Moved(l, l', source, destination, a, s, d, n, fee)
    requires s == a || (n <= a.delegatedAmount && s == UseAllowance(a, n))
    ensures Share(source, At(l', source), m) + Share(destination, At(l', destination), m)
         == Share(source, At(l, source), m) + Share(destination, At(l, destination), m)
  {
    var moved: int := if a.native.Some? then n else 0;
    var s', d' := s.(amount := a.amount - n), Credit(d, n, fee).value;
    ShareOfRewritten(source, At(l, source), At(l', source), s', At(l, source).lamports - moved, m);
    ShareOfRewritten(destination, At(l, destination), At(l', destination), d', At(l, destination).lamports + moved, m);
    CreditAdds(d, n, fee);
    assert s'.mint == a.mint && s'.Withheld() == a.Withheld();
  }

  lemma MovedInv(l: Ledger, l': Ledger, source: Pubkey, destination: Pubkey,
                 a: Account, s: Account, d: Account, n: u64, fee: u64)
    requires Inv(l) && Moved(l, l', source, destination, a, s, d, n, fee)
    requires s == a || (n <= a.delegatedAmount && s == UseAllowance(a, n))
    ensures Keeps(l, l')
  {
    assert CellOk(At(l, source)) && CellOk(At(l, destination));
    var b, c := At(l', source), At(l', destination);
    assert b.lamports + c.lamports == At(l, source).lamports + At(l, destination).lamports;
    MovedCells(l, l', source, destination, a, s, d, n, fee);
    forall m: Pubkey
      ensures Share(source, b, m) + Share(destination, c, m)
           == Share(source, At(l, source), m) + Share(destination, At(l, destination), m)
    {
      MovedShares(l, l', source, destination, a, s, d, n, fee, m);
    }
    TwoWrites(l, source, b, destination, c);
  }

  lemma TransferInv(l: Ledger, metas: seq<Meta>, n: u64, kind: TransferKind, env: Env)
    requires Inv(l) && H.Transfer(l, metas, n, kind, env).Ok?
    ensures Keeps(l, H.Transfer(l, metas, n, kind, env).value)
  {
    var source, destination := metas[0].key, metas[DestinationIndex(kind)].key;
    if source != destination {
      var a, s, d, quote := TransferEffect(l, metas, n, kind, env);
      var at := DestinationIndex(kind) + 1;
      SpendEffect(l, a, quote.permanentDelegate, metas[at], metas[at + 1..], n);
      MovedInv(l, H.Transfer(l, metas, n, kind, env).value, source, destination, a, s, d, n, quote.fee);
    }
  }

  lemma BurnInv(l: Ledger, metas: seq<Meta>, n: u64, d: Option<u8>, env: Env)
    requires Inv(l) && H.Burn(l, metas, n, d, env).Ok?
    ensures Keeps(l, H.Burn(l, metas, n, d, env).value)
  {
    var l' := H.Burn(l, metas, n, d, env).value;
    var source, mint := metas[0].key, metas[1].key;
    assert CellOk(At(l, source)) && CellOk(At(l, mint));
    TwoWrites(l, source, At(l', source), mint, At(l', mint));
  }

  lemma MintToInv(l: Ledger, metas: seq<Meta>, n: u64, d: Option<u8>)
    requires Inv(l) && H.MintTo(l, metas, n, d).Ok?
    ensures Keeps(l, H.MintTo(l, metas, n, d).value)
  {
    var l' := H.MintTo(l, metas, n, d).value;
    var mint, destination := metas[0].key, metas[1].key;
    assert CellOk(At(l, destination)) && CellOk(At(l, mint));
    TwoWrites(l, destination, At(l', destination), mint, At(l', mint));
  }

  lemma CloseAccountInv(l: Ledger, metas: seq<Meta>, env: Env)
    requires Inv(l) && H.CloseAccount(l, metas, env).Ok?
    ensures Keeps(l, H.CloseAccount(l, metas, env).value)
  {
    var l' := H.CloseAccount(l, metas, env).value;
    var source, destination := metas[0].key, metas[1].key;
    assert CellOk(At(l, source)) && CellOk(At(l, destination));
    assert source != NATIVE_MINT ==> Conserved(l, source);
    TwoWrites(l, destination, At(l', destination), source, EMPTY);
  }

  lemma NotNative(l: Ledger, k: Pubkey, authority: Meta, signers: seq<Meta>)
    requires CheckWithdrawExcess(l, k, authority, signers).Pass?
    ensures UnpackAccount(At(l, k).data).Ok? ==> UnpackAccount(At(l, k).data).value.native.None?
  {
  }

  lemma WithdrawExcessInv(l: Ledger, metas: seq<Meta>, env: Env)
    requires Inv(l) && H.WithdrawExcess(l, metas, env).Ok?
    ensures Keeps(l, H.WithdrawExcess(l, metas, env).value)
  {
    NotNative(l, metas[0].key, metas[2], metas[3..]);
    hide H.CheckWithdrawExcess;
    var l' := H.WithdrawExcess(l, metas, env).value;
    var source, destination := metas[0].key, metas[1].key;
    assert CellOk(At(l, source)) && CellOk(At(l, destination));
    if source != destination {
      assert l' == l[source := At(l', source)][destination := At(l', destination)];
      TwoWrites(l, source, At(l', source), destination, At(l', destination));
    } else {
      assert l' == l[source := At(l', source)];
      OneWrite(l, source, At(l', source));
    }
  }

  // ------------------------------------------------------------ extension instructions

  lemma StageMintInv(l: Ledger, metas: seq<Meta>, st: Staging, env: Env)
    requires Inv(l) && X.StageMint(l, metas, st, env).Ok?
    ensures Keeps(l, X.StageMint(l, metas, st, env).value)
  {
    var k := metas[0].key;
    assert CellOk(At(l, k));
    StagingKeepsFeeOk(UnpackUninitializedMint(At(l, k).data).value, st, env.epoch);
    OneWrite(l, k, At(X.StageMint(l, metas, st, env).value, k));
  }

  lemma StagingKeepsFeeOk(ext: MintExt, st: Staging, epoch: u64)
    requires ApplyStaging(ext, st, epoch).Ok?
    ensures var ext' := ApplyStaging(ext, st, epoch).value;
            ext'.fee == ext.fee || (FeeOk(ext') && ext'.fee.Some? && ext'.fee.value.withheld == 0)
  {
  }

  lemma StageImmutableOwnerInv(l: Ledger, metas: seq<Meta>, env: Env)
    requires Inv(l) && X.StageImmutableOwner(l, metas, env).Ok?
    ensures Keeps(l, X.StageImmutableOwner(l, metas, env).value)
  {
    var k := metas[0].key;
    assert CellOk(At(l, k));
    OneWrite(l, k, At(X.StageImmutableOwner(l, metas, env).value, k));
  }

  lemma TogglePauseInv(l: Ledger, metas: seq<Meta>, pause: bool)
    requires Inv(l) && X.TogglePause(l, metas, pause).Ok?
    ensures Keeps(l, X.TogglePause(l, metas, pause).value)
  {
    var k := metas[0].key;
    MintWrite(l, k, At(X.TogglePause(l, metas, pause).value, k).data.mint);
  }

  lemma SetTransferFeeInv(l: Ledger, metas: seq<Meta>, bp: u16, max: u64, env: Env)
    requires Inv(l) && X.SetTransferFee(l, metas, bp, max, env).Ok?
    ensures Keeps(l, X.SetTransferFee(l, metas, bp, max, env).value)
  {
    var k := metas[0].key;
    MintWrite(l, k, At(X.SetTransferFee(l, metas, bp, max, env).value, k).data.mint);
  }

  lemma ToggleCpiGuardInv(l: Ledger, metas: seq<Meta>, enable: bool, env: Env)
    requires Inv(l) && X.ToggleCpiGuard(l, metas, enable, env).Ok?
    ensures Keeps(l, X.ToggleCpiGuard(l, metas, enable, env).value)
  {
    var k := metas[0].key;
    AccountWrite(l, k, At(X.ToggleCpiGuard(l, metas, enable, env).value, k).data.account);
  }

  /** Without a live mint of its own a token account holds nothing of it. */
  lemma NothingWithoutMint(l: Ledger, m: Pubkey, k: Pubkey)
    requires Inv(l) && m != NATIVE_MINT && !IsLive(l, m)
    ensures Weigh(At(l, k), Tokens(m)) == 0
  {
    assert Conserved(l, m);
    WeighAtMostTotal(l, Tokens(m), k);
  }

  lemma WithdrawWithheldFromMintInv(l: Ledger, metas: seq<Meta>)
    requires Inv(l) && X.WithdrawWithheldFromMint(l, metas).Ok?
    requires RuntimeAccepts(l, X.WithdrawWithheldFromMint(l, metas).value)
    ensures Keeps(l, X.WithdrawWithheldFromMint(l, metas).value)
  {
    var mint, destination := metas[0].key, metas[1].key;
    var l' := X.WithdrawWithheldFromMint(l, metas).value;
    assert CellOk(At(l, mint)) && CellOk(At(l, destination));
    AcceptsEverywhere(l, l', destination);
    TwoWrites(l, mint, At(l', mint), destination, At(l', destination));
  }

  lemma HarvestOneInv(l: Ledger, mint: Pubkey, k: Pubkey)
    requires Inv(l) && mint != NATIVE_MINT && HarvestOne(l, mint, k).Ok?
    ensures Keeps(l, HarvestOne(l, mint, k).value)
  {
    if Harvestable(l, mint, k) {
      var l' := HarvestOne(l, mint, k).value;
      assert CellOk(At(l, mint)) && CellOk(At(l, k));
      if !IsLive(l, mint) {
        NothingWithoutMint(l, mint, k);
      }
      TwoWrites(l, k, At(l', k), mint, At(l', mint));
    }
  }

  lemma {:induction false} HarvestAllInv(l: Ledger, mint: Pubkey, sources: seq<Meta>)
    requires Inv(l) && mint != NATIVE_MINT && HarvestAll(l, mint, sources).Ok?
    ensures Keeps(l, HarvestAll(l, mint, sources).value)
    decreases |sources|
  {
    if sources != [] {
      HarvestOneInv(l, mint, sources[0].key);
      HarvestAllInv(HarvestOne(l, mint, sources[0].key).value, mint, sources[1..]);
    }
  }

  lemma CollectOneInv(l: Ledger, mint: Pubkey, destination: Pubkey, k: Pubkey)
    requires Inv(l) && mint != NATIVE_MINT && CollectOne(l, mint, destination, k).Ok?
    requires IsOpen(l, destination) && AccountAt(l, destination).mint == mint
    ensures Keeps(l, CollectOne(l, mint, destination, k).value)
    ensures IsOpen(CollectOne(l, mint, destination, k).value, destination)
    ensures AccountAt(CollectOne(l, mint, destination, k).value, destination).mint == mint
  {
    var l' := CollectOne(l, mint, destination, k).value;
    assert CellOk(At(l, destination)) && CellOk(At(l, k));
    if k == destination {
      OneWrite(l, k, At(l', k));
    } else if Harvestable(l, mint, k) {
      TwoWrites(l, k, At(l', k), destination, At(l', destination));
    }
  }

  lemma {:induction false} CollectAllInv(l: Ledger, mint: Pubkey, destination: Pubkey, sources: seq<Meta>)
    requires Inv(l) && mint != NATIVE_MINT && CollectAll(l, mint, destination, sources).Ok?
    requires IsOpen(l, destination) && AccountAt(l, destination).mint == mint
    ensures Keeps(l, CollectAll(l, mint, destination, sources).value)
    decreases |sources|
  {
    if sources != [] {
      CollectOneInv(l, mint, destination, sources[0].key);
      CollectAllInv(CollectOne(l, mint, destination, sources[0].key).value, mint, destination, sources[1..]);
    }
  }

  /** Collecting never lowers the receiver's balance. */
  lemma {:induction false} CollectGrows(l: Ledger, mint: Pubkey, destination: Pubkey, sources: seq<Meta>)
    requires CollectAll(l, mint, destination, sources).Ok?
    requires UnpackAccount(At(l, destination).data).Ok?
    ensures UnpackAccount(At(CollectAll(l, mint, destination, sources).value, destination).data).Ok?
    ensures UnpackAccount(At(CollectAll(l, mint, destination, sources).value, destination).data).value.amount
         >= UnpackAccount(At(l, destination).data).value.amount
    decreases |sources|
  {
    if sources != [] {
      CollectGrows(CollectOne(l, mint, destination, sources[0].key).value, mint, destination, sources[1..]);
    }
  }

  /** A receiver that is not the program's own may not change, so nothing was collected. */
  lemma {:induction false} CollectForeignInv(l: Ledger, mint: Pubkey, destination: Pubkey, sources: seq<Meta>)
    requires Inv(l) && mint != NATIVE_MINT && CollectAll(l, mint, destination, sources).Ok?
    requires !Ours(At(l, destination)) && UnpackAccount(At(l, destination).data).Ok?
    requires At(CollectAll(l, mint, destination, sources).value, destination).data.AccountData?
    requires At(CollectAll(l, mint, destination, sources).value, destination).data.account.amount
          == At(l, destination).data.account.amount
    ensures Keeps(l, CollectAll(l, mint, destination, sources).value)
    decreases |sources|
  {
    if sources != [] {
      var k := sources[0].key;
      var l1 := CollectOne(l, mint, destination, k).value;
      CollectGrows(l1, mint, destination, sources[1..]);
      CollectNothingInv(l, mint, destination, k);
      CollectForeignInv(l1, mint, destination, sources[1..]);
    }
  }

  lemma CollectNothingInv(l: Ledger, mint: Pubkey, destination: Pubkey, k: Pubkey)
    requires Inv(l) && mint != NATIVE_MINT && CollectOne(l, mint, destination, k).Ok?
    requires !Ours(At(l, destination)) && UnpackAccount(At(l, destination).data).Ok?
    requires At(CollectOne(l, mint, destination, k).value, destination).data.account.amount
          == At(l, destination).data.account.amount
    ensures Keeps(l, CollectOne(l, mint, destination, k).value)
  {
    var l' := CollectOne(l, mint, destination, k).value;
    assert CellOk(At(l, destination)) && CellOk(At(l, k));
    if k == destination {
      OneWrite(l, k, At(l', k));
    } else if Harvestable(l, mint, k) {
      TwoWrites(l, k, At(l', k), destination, At(l', destination));
    }
  }

  lemma HarvestWithheldToMintInv(l: Ledger, metas: seq<Meta>)
    requires Inv(l) && X.HarvestWithheldToMint(l, metas).Ok?
    ensures Keeps(l, X.HarvestWithheldToMint(l, metas).value)
  {
    HarvestAllInv(l, metas[0].key, metas[1..]);
  }

  lemma WithdrawWithheldFromAccountsInv(l: Ledger, metas: seq<Meta>, count: u8)
    requires Inv(l) && X.WithdrawWithheldFromAccounts(l, metas, count).Ok?
    requires RuntimeAccepts(l, X.WithdrawWithheldFromAccounts(l, metas, count).value)
    ensures Keeps(l, X.WithdrawWithheldFromAccounts(l, metas, count).value)
  {
    var l' := X.WithdrawWithheldFromAccounts(l, metas, count).value;
    var mint, destination, rest := metas[0].key, metas[1].key, metas[3..];
    var sources := rest[if |rest| >= count then |rest| - count else 0..];
    AcceptsEverywhere(l, l', destination);
    if Ours(At(l, destination)) {
      CollectAllInv(l, mint, destination, sources);
    } else {
      CollectForeignInv(l, mint, destination, sources);
    }
  }

  // ------------------------------------------------------------ all steps, all runs

  lemma OutsideInv(l: Ledger, l': Ledger)
    requires Inv(l) && OutsideAllowed(l, l')
    ensures Keeps(l, l')
  {
    forall k: Pubkey ensures CellOk(At(l', k)) {
      assert CellOk(At(l, k)) && OutsideCell(At(l, k), At(l', k));
    }
    forall m: Pubkey ensures m != NATIVE_MINT ==> Conserved(l', m) {
      assert m != NATIVE_MINT ==> Conserved(l, m);
      assert OutsideCell(At(l, m), At(l', m));
      forall k: Pubkey ensures Weigh(At(l, k), Tokens(m)) == Weigh(At(l', k), Tokens(m)) {
        assert OutsideCell(At(l, k), At(l', k));
      }
      TotalSame(l, l', Tokens(m));
    }
    assert OutsideCell(At(l, NATIVE_MINT), At(l', NATIVE_MINT));
  }

  lemma ExecuteInv(l: Ledger, ix: Instruction, metas: seq<Meta>, env: Env)
    requires Inv(l) && Execute(l, ix, metas, env).Ok?
    ensures Keeps(l, Execute(l, ix, metas, env).value)
  {
    match ix {
      case InitializeMint(d, a, f, r) => InitializeMintInv(l, metas, d, a, f, r, env);
      case InitializeAccount(o, r) => InitializeAccountInv(l, metas, o, r, env);
      case InitializeMultisig(m, r) => InitializeMultisigInv(l, metas, m, r, env);
      case Transfer(n, kind) => TransferInv(l, metas, n, kind, env);
      case Approve(n, d) => ApproveInv(l, metas, n, d, env);
      case Revoke => RevokeInv(l, metas);
      case SetAuthority(kind, next) => SetAuthorityInv(l, metas, kind, next, env);
      case MintTo(n, d) => MintToInv(l, metas, n, d);
      case Burn(n, d) => BurnInv(l, metas, n, d, env);
      case CloseAccount => CloseAccountInv(l, metas, env);
      case ToggleFreeze(f) => ToggleFreezeInv(l, metas, f);
      case SyncNative => SyncNativeInv(l, metas);
      case WithdrawExcess => WithdrawExcessInv(l, metas, env);
      case StageMint(st) => StageMintInv(l, metas, st, env);
      case StageImmutableOwner => StageImmutableOwnerInv(l, metas, env);
      case TogglePause(p) => TogglePauseInv(l, metas, p);
      case SetTransferFee(bp, max) => SetTransferFeeInv(l, metas, bp, max, env);
      case ToggleCpiGuard(e) => ToggleCpiGuardInv(l, metas, e, env);
      case WithdrawWithheldFromMint => WithdrawWithheldFromMintInv(l, metas);
      case HarvestWithheldToMint => HarvestWithheldToMintInv(l, metas);
      case WithdrawWithheldFromAccounts(n) => WithdrawWithheldFromAccountsInv(l, metas, n);
    }
  }

  lemma NextInv(l: Ledger, s: Step)
    requires Inv(l)
    ensures Keeps(l, Next(l, s))
  {
    match s {
      case Instruct(ix, metas, env) =>
        if Execute(l, ix, metas, env).Ok? {
          ExecuteInv(l, ix, metas, env);
        }
      case Outside(l') =>
        if OutsideAllowed(l, l') {
          OutsideInv(l, l');
        }
    }
  }

  lemma {:induction false} RunInv(l: Ledger, steps: seq<Step>)
    requires Inv(l)
    ensures Keeps(l, Run(l, steps))
    decreases |steps|
  {
    if steps != [] {
      NextInv(l, steps[0]);
      RunInv(Next(l, steps[0]), steps[1..]);
    }
  }
}
