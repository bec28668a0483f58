/** Where the checked arithmetic of the handlers can fail in a reachable ledger, and where not. */
module Overflow {
  import opened Prelude
  import opened Ledger
  import opened Multisig
  import opened Totals
  import opened Invariants
  import opened H = Handlers
  import opened X = Extensions
  import opened Effects

  /** Two accounts of one mint hold at most its supply together, so their sum fits in u64. */
  lemma PairFits(l: Ledger, j: Pubkey, k: Pubkey)
    requires Inv(l) && j != k && IsOpen(l, j) && IsOpen(l, k)
    requires AccountAt(l, j).mint == AccountAt(l, k).mint
    ensures AccountAt(l, j).amount + AccountAt(l, k).amount <= U64_MAX
    ensures AccountAt(l, j).mint != NATIVE_MINT ==>
              AccountAt(l, j).amount + AccountAt(l, k).amount + AccountAt(l, k).Withheld() <= U64_MAX
  {
    var m := AccountAt(l, j).mint;
    assert CellOk(At(l, j)) && CellOk(At(l, k));
    if m == NATIVE_MINT {
      WeighPairAtMostTotal(l, Lamports, j, k);
    } else {
      assert Conserved(l, m);
      WeighPairAtMostTotal(l, Tokens(m), j, k);
    }
  }

  /** The fee of a transfer the source can pay always exists, never exceeds the amount, and is
      zero for wrapped SOL. */
  lemma QuoteFits(l: Ledger, k: Pubkey, metas: seq<Meta>, n: u64, kind: TransferKind, env: Env)
    requires Inv(l) && IsOpen(l, k) && n <= AccountAt(l, k).amount
    requires !kind.Unchecked? ==> |metas| >= 2
    ensures var q := QuoteFor(l, AccountAt(l, k), metas, n, kind, env);
            && q != Err(Error.Overflow)
            && (q.Ok? ==> q.value.fee <= n)
            && (q.Ok? && AccountAt(l, k).mint == NATIVE_MINT ==> q.value.fee == 0)
  {
    var a := AccountAt(l, k);
    if !kind.Unchecked? && a.mint == metas[1].key && UnpackMint(At(l, a.mint).data).Ok? {
      var fee := UnpackMint(At(l, a.mint).data).value.ext.fee;
      if IsLive(l, a.mint) {
        assert CellOk(At(l, a.mint));
        if fee.Some? {
          FeeAtMostAmount(fee.value, env.epoch, n);
        }
      } else {
        NothingWithoutMint(l, a.mint, k);
      }
    }
  }

  lemma DeliverFits(l: Ledger, source: Pubkey, s: Account, destination: Pubkey, n: u64, q: Quote, env: Env)
    requires Inv(l) && source != destination && IsOpen(l, source) && Ours(At(l, destination))
    requires s.mint == AccountAt(l, source).mint && s.native == AccountAt(l, source).native
    requires n <= s.amount == AccountAt(l, source).amount
    requires q.fee <= n && (s.mint == NATIVE_MINT ==> q.fee == 0)
    ensures Deliver(l, source, s, destination, n, q, env) != Err(Error.Overflow)
  {
    if IsOpen(l, destination) && AccountAt(l, destination).mint == s.mint {
      CreditFits(l, source, destination, n, q.fee);
      if s.native.Some? {
        LamportsFit(l, source, destination, n);
      }
    }
  }

  /** The accounts listed bring a transfer as far as the fee of the mint, and the fee leaves u64. */
  predicate FeeOverflows(l: Ledger, metas: seq<Meta>, n: u64, kind: TransferKind, env: Env) {
    && !kind.Unchecked? && |metas| >= 4
    && UnpackAccount(At(l, metas[0].key).data).Ok?
    && var a := UnpackAccount(At(l, metas[0].key).data).value;
       && !a.frozen && n <= a.amount && !a.ext.nonTransferable
       && a.mint == metas[1].key && UnpackMint(At(l, a.mint).data).Ok?
       && var mint := UnpackMint(At(l, a.mint).data).value;
          && mint.decimals == kind.decimals
          && mint.ext.fee.Some? && EpochFee(mint.ext.fee.value, env.epoch, n).None?
  }

  /** In a reachable ledger a transfer overflows in its fee or not at all: neither balance, nor
      withheld fee, nor lamports ever do, whoever owns the accounts listed. */
  lemma TransferOverflowsExactly(l: Ledger, metas: seq<Meta>, n: u64, kind: TransferKind, env: Env)
    requires Inv(l)
    ensures H.Transfer(l, metas, n, kind, env) == Err(Error.Overflow) <==> FeeOverflows(l, metas, n, kind, env)
    ensures FeeOverflows(l, metas, n, kind, env) ==>
              |metas| >= 2 && !Ours(At(l, metas[0].key)) && !Ours(At(l, metas[1].key))
  {
    hide H.Transfer, FeeOverflows;
    if |metas| > 0 && Ours(At(l, metas[0].key)) {
      TransferNeverOverflows(l, metas, n, kind, env);
      NoFeeOverflows(l, metas, n, kind, env);
    } else {
      ForeignSourceOverflows(l, metas, n, kind, env);
      OwnMintCharges(l, metas, n, kind, env);
    }
  }

  /** Behind the fee the owner of the source account is looked at before anything is computed. */
  lemma ForeignSourceOverflows(l: Ledger, metas: seq<Meta>, n: u64, kind: TransferKind, env: Env)
    requires |metas| == 0 || !Ours(At(l, metas[0].key))
    ensures H.Transfer(l, metas, n, kind, env) == Err(Error.Overflow) <==> FeeOverflows(l, metas, n, kind, env)
    ensures FeeOverflows(l, metas, n, kind, env) ==> |metas| >= 4
  {
  }

  lemma OwnMintCharges(l: Ledger, metas: seq<Meta>, n: u64, kind: TransferKind, env: Env)
    requires Inv(l)
    ensures FeeOverflows(l, metas, n, kind, env) ==> |metas| >= 2 && !Ours(At(l, metas[1].key))
  {
    if |metas| >= 2 && IsLive(l, metas[1].key) && MintAt(l, metas[1].key).ext.fee.Some? {
      assert CellOk(At(l, metas[1].key));
      FeeAtMostAmount(MintAt(l, metas[1].key).ext.fee.value, env.epoch, n);
    }
  }

  lemma NoFeeOverflows(l: Ledger, metas: seq<Meta>, n: u64, kind: TransferKind, env: Env)
    requires Inv(l) && |metas| > 0 && Ours(At(l, metas[0].key))
    ensures !FeeOverflows(l, metas, n, kind, env)
  {
    if |metas| >= 2 && IsOpen(l, metas[0].key) && n <= AccountAt(l, metas[0].key).amount {
      QuoteFits(l, metas[0].key, metas, n, kind, env);
    }
  }

  lemma SpendNeverOverflows(l: Ledger, a: Account, permanentDelegate: Option<Pubkey>, authority: Meta,
                            signers: seq<Meta>, n: u64, charge: bool)
    ensures Spend(l, a, permanentDelegate, authority, signers, n, charge) != Err(Error.Overflow)
  {
  }

  /** In particular no transfer from an account of this program does. */
  lemma TransferNeverOverflows(l: Ledger, metas: seq<Meta>, n: u64, kind: TransferKind, env: Env)
    requires Inv(l) && |metas| > 0 && Ours(At(l, metas[0].key))
    ensures H.Transfer(l, metas, n, kind, env) != Err(Error.Overflow)
  {
    var at := DestinationIndex(kind) + 1;
    var source := metas[0].key;
    if |metas| > at && IsOpen(l, source) && n <= AccountAt(l, source).amount {
      var a := AccountAt(l, source);
      QuoteFits(l, source, metas, n, kind, env);
      var quoted := QuoteFor(l, a, metas, n, kind, env);
      if quoted.Ok? {
        var pd, self := quoted.value.permanentDelegate, source == metas[at - 1].key;
        SpendNeverOverflows(l, a, pd, metas[at], metas[at + 1..], n, !self);
        if !self && Ours(At(l, metas[at - 1].key)) {
          var spent := Spend(l, a, pd, metas[at], metas[at + 1..], n, true);
          if spent.Ok? {
            SpendEffect(l, a, pd, metas[at], metas[at + 1..], n);
            hide Spend, QuoteFor;
            DeliverFits(l, source, spent.value, metas[at - 1].key, n, quoted.value, env);
          }
        }
      }
      hide Spend, QuoteFor, Deliver;
    }
  }

  /** An account with key 1 and its mint with key 2, both owned by another program; the mint
      charges more than the amount. */
  function ForeignLedger(): Ledger {
    var rate := TransferFee(0, U64_MAX, 0xFFFF);
    var fees := PLAIN_MINT.(fee := Some(FeeConfig(rate, rate, 0)));
    var account := Account(2, 3, U64_MAX, None, false, None, 0, None, PLAIN_ACCOUNT);
    map[NATIVE_MINT := Cell(0, TOKEN_PROGRAM, MintData(MINT_LEN, Mint(None, 0, 9, None, PLAIN_MINT))),
        1 := Cell(0, 9, AccountData(ACCOUNT_LEN, account)),
        2 := Cell(0, 9, MintData(300, Mint(None, 0, 0, None, fees)))]
  }

  /** Without an account of the program as source, Overflow is reached: the fee of a foreign mint
      can leave u64, and it is computed before the owner of the accounts is looked at. */
  lemma ForeignFeeOverflows() returns (l: Ledger, metas: seq<Meta>, env: Env)
    ensures Inv(l) && |metas| > 0 && !Ours(At(l, metas[0].key))
    ensures H.Transfer(l, metas, U64_MAX, Checked(0), env) == Err(Error.Overflow)
  {
    l := ForeignLedger();
    metas := [Meta(1, false), Meta(2, false), Meta(1, false), Meta(3, true)];
    env := Env(_ => 0, false, false, 0, false, false);
    AllZero(l, Lamports);
    forall m: Pubkey ensures m != NATIVE_MINT ==> Conserved(l, m) {
      AllZero(l, Tokens(m));
    }
  }

  lemma CreditFits(l: Ledger, source: Pubkey, destination: Pubkey, n: u64, fee: u64)
    requires Inv(l) && source != destination && IsOpen(l, source) && IsOpen(l, destination)
    requires AccountAt(l, source).mint == AccountAt(l, destination).mint && n <= AccountAt(l, source).amount
    requires fee <= n && (AccountAt(l, source).mint == NATIVE_MINT ==> fee == 0)
    ensures Credit(AccountAt(l, destination), n, fee) != Err(Error.Overflow)
  {
    PairFits(l, source, destination);
  }

  lemma LamportsFit(l: Ledger, source: Pubkey, destination: Pubkey, n: u64)
    requires Inv(l) && source != destination && IsOpen(l, source) && AccountAt(l, source).native.Some?
    requires n <= AccountAt(l, source).amount
    ensures MoveLamports(l, source, destination, n).Ok?
  {
    assert CellOk(At(l, source));
    WeighPairAtMostTotal(l, Lamports, source, destination);
  }

  /** Burning never underflows the supply. */
  lemma BurnNeverOverflows(l: Ledger, metas: seq<Meta>, n: u64, d: Option<u8>, env: Env)
    requires Inv(l)
    ensures H.Burn(l, metas, n, d, env) != Err(Error.Overflow)
  {
    if |metas| >= 3 && IsOpen(l, metas[0].key) && IsLive(l, metas[1].key)
       && AccountAt(l, metas[0].key).mint == metas[1].key
    {
      var a, mint := AccountAt(l, metas[0].key), MintAt(l, metas[1].key);
      assert CellOk(At(l, metas[0].key));
      if metas[1].key != NATIVE_MINT {
        assert Conserved(l, metas[1].key);
        WeighAtMostTotal(l, Tokens(metas[1].key), metas[0].key);
      }
      SpendNeverOverflows(l, a, mint.PermanentDelegate(), metas[2], metas[3..], n, true);
      hide Spend;
    }
  }

  /** Moving lamports out of an account never overflows the receiver. */
  lemma LamportMovesNeverOverflow(l: Ledger, metas: seq<Meta>, env: Env)
    requires Inv(l)
    ensures H.CloseAccount(l, metas, env) != Err(Error.Overflow)
    ensures H.WithdrawExcess(l, metas, env) != Err(Error.Overflow)
    ensures H.SyncNative(l, metas) != Err(Error.Overflow)
  {
    if |metas| >= 1 {
      assert CellOk(At(l, metas[0].key));
    }
    if |metas| >= 3 && metas[0].key != metas[1].key {
      WeighPairAtMostTotal(l, Lamports, metas[0].key, metas[1].key);
    }
  }

  /** Harvesting into a mint never overflows what the mint has withheld; without a live mint no
      account has anything to harvest. */
  lemma {:induction false} HarvestNeverOverflows(l: Ledger, mint: Pubkey, sources: seq<Meta>)
    requires Inv(l) && mint != NATIVE_MINT
    ensures HarvestAll(l, mint, sources) != Err(Error.Overflow)
    decreases |sources|
  {
    if sources != [] {
      var k := sources[0].key;
      assert Conserved(l, mint);
      WeighAtMostTotal(l, Tokens(mint), k);
      if !IsLive(l, mint) {
        NothingWithoutMint(l, mint, k);
      }
      if HarvestOne(l, mint, k).Ok? {
        HarvestOneInv(l, mint, k);
        HarvestNeverOverflows(HarvestOne(l, mint, k).value, mint, sources[1..]);
      }
    }
  }

  /** On the instruction: whatever mint and accounts are listed. */
  lemma HarvestInstructionNeverOverflows(l: Ledger, metas: seq<Meta>)
    requires Inv(l)
    ensures X.HarvestWithheldToMint(l, metas) != Err(Error.Overflow)
  {
    if |metas| >= 1 && metas[0].key != NATIVE_MINT {
      HarvestNeverOverflows(l, metas[0].key, metas[1..]);
    }
  }
}
