/** Extensions that a mint hands down to its accounts, and why they cannot be avoided. */
module Inheritance {
  import opened Prelude
  import opened Ledger
  import opened Multisig
  import opened Totals
  import opened Machine
  import opened Invariants
  import opened Effects
  import opened Events
  import opened Runs
  import opened Success
  import opened Exact
  import opened H = Handlers

  /** Every account of the live mint `m` carries the extensions `m` imposes. */
  ghost predicate Inherits(l: Ledger, m: Pubkey) {
    && IsLive(l, m)
    && (forall k: Pubkey :: IsOpen(l, k) && AccountAt(l, k).mint == m ==>
          InheritsFrom(AccountAt(l, k).ext, MintAt(l, m).ext))
  }

  /** A mint that appears where no account waits for it has nothing to hand down yet. */
  lemma FreshMintInherits(l: Ledger, metas: seq<Meta>, d: u8, a: Pubkey, f: Option<Pubkey>, r: bool, env: Env)
    requires Execute(l, Instruction.InitializeMint(d, a, f, r), metas, env).Ok? && Ours(At(l, metas[0].key))
    requires forall k: Pubkey :: IsOpen(l, k) ==> AccountAt(l, k).mint != metas[0].key
    ensures Inherits(Execute(l, Instruction.InitializeMint(d, a, f, r), metas, env).value, metas[0].key)
  {
    var ix := Instruction.InitializeMint(d, a, f, r);
    var l' := Execute(l, ix, metas, env).value;
    forall k: Pubkey ensures IsOpen(l', k) ==> AccountAt(l', k).mint != metas[0].key {
      ExecuteEvents(l, ix, metas, env, k);
      assert IsOpen(l, k) ==> AccountAt(l, k).mint != metas[0].key;
    }
  }

  /** What one step can do to the extensions of the accounts of a live mint. */
  lemma InheritStep(l: Ledger, s: Step, m: Pubkey)
    requires Inherits(l, m) && IsLive(Next(l, s), m)
    ensures Inherits(Next(l, s), m)
  {
    var l' := Next(l, s);
    NextMint(l, s, m);
    forall k: Pubkey
      ensures IsOpen(l', k) && AccountAt(l', k).mint == m ==> InheritsFrom(AccountAt(l', k).ext, MintAt(l', m).ext)
    {
      if IsOpen(l', k) {
        if IsOpen(l, k) {
          NextEvents(l, s, k);
        } else {
          NextBirth(l, s, k);
        }
      }
    }
  }

  lemma NextBirth(l: Ledger, s: Step, k: Pubkey)
    requires !IsOpen(l, k) && IsOpen(Next(l, s), k)
    ensures var a := AccountAt(Next(l, s), k);
            IsLive(l, a.mint) && InheritsFrom(a.ext, MintAt(l, a.mint).ext)
  {
    OthersOpenNothing(l, s, k);
    if Succeeds(l, s) {
      ExecuteEvents(l, s.ix, s.metas, s.env, k);
    }
  }

  /** Neither a failing step nor another program creates a token account. */
  lemma OthersOpenNothing(l: Ledger, s: Step, k: Pubkey)
    ensures !Succeeds(l, s) && IsOpen(Next(l, s), k) ==> IsOpen(l, k)
  {
    if s.Outside? && OutsideAllowed(l, s.after) {
      assert OutsideCell(At(l, k), At(s.after, k));
    }
  }

  /** While a mint is never closed, all its accounts keep carrying what it imposes. */
  lemma {:induction false} InheritsOverRuns(l: Ledger, steps: seq<Step>, m: Pubkey)
    requires Inherits(l, m) && StaysLive(l, steps, m)
    ensures Inherits(Run(l, steps), m)
    decreases |steps|
  {
    if steps != [] {
      InheritStep(l, steps[0], m);
      InheritsOverRuns(Next(l, steps[0]), steps[1..], m);
    }
  }

  /** Closing and re-creating a mint is what breaks it. Accounts that outlive their mint stay,
      empty, with the extensions they had; the mint initialized at its key is inherited exactly
      when all of these survivors already carry what the extensions staged there impose. */
  lemma RecreatedMintInherits(l: Ledger, metas: seq<Meta>, d: u8, a: Pubkey, f: Option<Pubkey>, r: bool, env: Env)
    requires Inv(l)
    requires Execute(l, Instruction.InitializeMint(d, a, f, r), metas, env).Ok? && Ours(At(l, metas[0].key))
    ensures var m, l' := metas[0].key, Execute(l, Instruction.InitializeMint(d, a, f, r), metas, env).value;
            var staged := UnpackUninitializedMint(At(l, m).data);
            && !IsLive(l, m) && IsLive(l', m) && staged.Ok? && MintAt(l', m).ext == staged.value
            && Inherits(l', m)
               == (forall k: Pubkey :: Survives(l, m, k) ==> InheritsFrom(AccountAt(l, k).ext, staged.value))
            && (forall k: Pubkey :: Survives(l, m, k) ==> AccountAt(l, k).amount == 0 && AccountAt(l, k).Withheld() == 0)
  {
    var ix := Instruction.InitializeMint(d, a, f, r);
    var m, l' := metas[0].key, Execute(l, ix, metas, env).value;
    forall k: Pubkey
      ensures IsOpen(l', k) == IsOpen(l, k) && (IsOpen(l, k) ==> AccountAt(l', k) == AccountAt(l, k))
      ensures Survives(l, m, k) ==> AccountAt(l, k).amount == 0 && AccountAt(l, k).Withheld() == 0
    {
      NothingWithoutMint(l, m, k);
    }
    var staged := UnpackUninitializedMint(At(l, m).data).value;
    if forall k: Pubkey :: Survives(l, m, k) ==> InheritsFrom(AccountAt(l, k).ext, staged) {
      forall k: Pubkey | IsOpen(l', k) && AccountAt(l', k).mint == m
        ensures InheritsFrom(AccountAt(l', k).ext, staged)
      {
        assert Survives(l, m, k);
      }
    }
    if Inherits(l', m) {
      forall k: Pubkey | Survives(l, m, k) ensures InheritsFrom(AccountAt(l, k).ext, staged) {
        assert IsOpen(l', k) && AccountAt(l', k).mint == m;
      }
    }
  }

  /** An account of the mint `m`, live or not. */
  predicate Survives(l: Ledger, m: Pubkey, k: Pubkey) {
    IsOpen(l, k) && AccountAt(l, k).mint == m
  }

  /** From an account of a fee, hook or pausable mint an unchecked transfer succeeds exactly when
      the account carries the account side of none of the three, so not all that the mint
      imposes, and the transfer is in order otherwise. */
  lemma UncheckedTransferExactly(l: Ledger, m: Pubkey, metas: seq<Meta>, n: u64, env: Env)
    requires Inv(l) && IsLive(l, m) && |metas| > 0 && Survives(l, m, metas[0].key)
    requires MintAt(l, m).ext.fee.Some? || MintAt(l, m).ext.hook.Some? || MintAt(l, m).ext.paused.Some?
    ensures var a := AccountAt(l, metas[0].key);
            && H.Transfer(l, metas, n, Unchecked, env).Ok? == (
                 && a.ext.withheld.None? && a.ext.hook.None? && !a.ext.pausable
                 && MayTransfer(l, metas, n, Unchecked, env))
            && (H.Transfer(l, metas, n, Unchecked, env).Ok? ==> !InheritsFrom(a.ext, MintAt(l, m).ext))
  {
    TransferSucceedsExactly(l, metas, n, Unchecked, env);
  }

  // The instance: a mint with a fee of 1%, staged at key 1, and two accounts without extensions
  // that survive from the mint that was there before.

  function SurvivorsLedger(): Ledger {
    var rate := TransferFee(0, U64_MAX, 100);
    var survivor := Account(1, 4, 0, None, false, None, 0, None, PLAIN_ACCOUNT);
    map[NATIVE_MINT := Cell(0, TOKEN_PROGRAM, MintData(MINT_LEN, Mint(None, 0, 9, None, PLAIN_MINT))),
        1 := Cell(0, TOKEN_PROGRAM, StagedMint(300, PLAIN_MINT.(fee := Some(FeeConfig(rate, rate, 0))))),
        2 := Cell(0, TOKEN_PROGRAM, AccountData(ACCOUNT_LEN, survivor)),
        3 := Cell(0, TOKEN_PROGRAM, AccountData(ACCOUNT_LEN, survivor))]
  }

  const NO_RENT: Env := Env(_ => 0, false, false, 0, true, false)

  lemma SurvivorsLedgerInv()
    ensures Inv(SurvivorsLedger())
  {
    var l := SurvivorsLedger();
    AllZero(l, Lamports);
    forall m: Pubkey ensures m != NATIVE_MINT ==> Conserved(l, m) {
      AllZero(l, Tokens(m));
    }
  }

  /** The mint is initialized with its fee, */
  lemma SurvivorsMeetMint(l: Ledger) returns (l1: Ledger)
    requires l == SurvivorsLedger()
    ensures Execute(l, Instruction.InitializeMint(0, 5, None, false), [Meta(1, false)], NO_RENT) == Ok(l1)
    ensures l1 == WithMint(l, 1, Mint(Some(5), 0, 0, None, l[1].data.mintExt))
  {
    l1 := WithMint(l, 1, Mint(Some(5), 0, 0, None, l[1].data.mintExt));
    assert H.InitializeMint(l, [Meta(1, false)], 0, 5, None, false, NO_RENT) == Ok(l1);
  }

  /** mints 100 tokens to one survivor, */
  lemma SurvivorReceives(l: Ledger, l1: Ledger) returns (l2: Ledger)
    requires l == SurvivorsLedger() && l1 == WithMint(l, 1, Mint(Some(5), 0, 0, None, l[1].data.mintExt))
    ensures Execute(l1, Instruction.MintTo(100, None), [Meta(1, false), Meta(2, false), Meta(5, true)], NO_RENT)
         == Ok(l2)
    ensures l2 == WithMint(WithAccount(l1, 2, AccountAt(l, 2).(amount := 100)), 1, MintAt(l1, 1).(supply := 100))
  {
    l2 := WithMint(WithAccount(l1, 2, AccountAt(l, 2).(amount := 100)), 1, MintAt(l1, 1).(supply := 100));
    assert H.MintTo(l1, [Meta(1, false), Meta(2, false), Meta(5, true)], 100, None) == Ok(l2);
  }

  /** who passes them on to the other one by an unchecked transfer. */
  lemma SurvivorPays(l2: Ledger, survivor: Account) returns (l3: Ledger)
    requires At(l2, 2) == Cell(0, TOKEN_PROGRAM, AccountData(ACCOUNT_LEN, survivor.(amount := 100)))
    requires At(l2, 3) == Cell(0, TOKEN_PROGRAM, AccountData(ACCOUNT_LEN, survivor))
    requires survivor == Account(1, 4, 0, None, false, None, 0, None, PLAIN_ACCOUNT) && !Ours(At(l2, 4))
    ensures Execute(l2, Instruction.Transfer(100, Unchecked), [Meta(2, false), Meta(3, false), Meta(4, true)], NO_RENT)
         == Ok(l3)
    ensures l3 == WithAccount(WithAccount(l2, 2, survivor), 3, survivor.(amount := 100))
  {
    l3 := WithAccount(WithAccount(l2, 2, survivor), 3, survivor.(amount := 100));
    assert H.Transfer(l2, [Meta(2, false), Meta(3, false), Meta(4, true)], 100, Unchecked, NO_RENT) == Ok(l3);
  }

  lemma SurvivorsThere()
    ensures var l := SurvivorsLedger();
            var survivor := Account(1, 4, 0, None, false, None, 0, None, PLAIN_ACCOUNT);
            var rate := TransferFee(0, U64_MAX, 100);
            && At(l, 1) == Cell(0, TOKEN_PROGRAM, StagedMint(300, PLAIN_MINT.(fee := Some(FeeConfig(rate, rate, 0)))))
            && At(l, 2) == Cell(0, TOKEN_PROGRAM, AccountData(ACCOUNT_LEN, survivor)) == At(l, 3)
            && 1 in l && !Ours(At(l, 4))
  {
  }

  lemma SurvivorFee(l: Ledger)
    requires IsLive(l, 1) && MintAt(l, 1).ext.fee.Some?
    requires MintAt(l, 1).ext.fee.value.older == MintAt(l, 1).ext.fee.value.newer == TransferFee(0, U64_MAX, 100)
    ensures FeeOwed(MintAt(l, 1), NO_RENT.epoch, 100) == Some(1)
  {
  }

  /** So all three succeed in a ledger that satisfies the invariant, and 100 tokens arrive although
      the mint's fee for them is one. */
  lemma SurvivorsEscapeFee() returns (l: Ledger, l1: Ledger, l2: Ledger, l3: Ledger)
    ensures Inv(l) && !IsLive(l, 1)
    ensures Execute(l, Instruction.InitializeMint(0, 5, None, false), [Meta(1, false)], NO_RENT) == Ok(l1)
    ensures Execute(l1, Instruction.MintTo(100, None), [Meta(1, false), Meta(2, false), Meta(5, true)], NO_RENT)
         == Ok(l2)
    ensures Execute(l2, Instruction.Transfer(100, Unchecked), [Meta(2, false), Meta(3, false), Meta(4, true)], NO_RENT)
         == Ok(l3)
    ensures IsLive(l2, 1) && FeeOwed(MintAt(l2, 1), NO_RENT.epoch, 100) == Some(1)
    ensures IsOpen(l3, 3) && AccountAt(l3, 3).amount == 100 && AccountAt(l3, 3).Withheld() == 0
  {
    hide Execute, Inv, SurvivorsLedger, FeeOwed;
    l := SurvivorsLedger();
    SurvivorsLedgerInv();
    SurvivorsThere();
    l1 := SurvivorsMeetMint(l);
    l2 := SurvivorReceives(l, l1);
    SurvivorFee(l2);
    l3 := SurvivorPays(l2, AccountAt(l, 3));
  }

  /** No unchecked transfer leaves an account of a fee, hook or pausable mint. */
  lemma UncheckedTransferRefused(l: Ledger, m: Pubkey, metas: seq<Meta>, n: u64, env: Env)
    requires Inherits(l, m)
    requires MintAt(l, m).ext.fee.Some? || MintAt(l, m).ext.hook.Some? || MintAt(l, m).ext.paused.Some?
    requires |metas| > 0 && IsOpen(l, metas[0].key) && AccountAt(l, metas[0].key).mint == m
    ensures H.Transfer(l, metas, n, Unchecked, env).Err?
  {
  }

  lemma QuotedFeeNeedsConfig(l: Ledger, m: Pubkey, a: Account, metas: seq<Meta>, n: u64, kind: TransferKind, env: Env)
    requires IsLive(l, m) && a.mint == m && (!kind.Unchecked? ==> |metas| >= 2)
    ensures var q := QuoteFor(l, a, metas, n, kind, env);
            q != Err(InvalidState) && (q.Ok? && q.value.fee > 0 ==> MintAt(l, m).ext.fee.Some?)
  {
  }

  lemma DeliverCanWithhold(l: Ledger, source: Pubkey, s: Account, destination: Pubkey, n: u64, q: Quote, env: Env)
    requires n <= s.amount && Ours(At(l, destination))
    requires q.fee > 0 && IsOpen(l, destination) && AccountAt(l, destination).mint == s.mint ==>
               AccountAt(l, destination).ext.withheld.Some?
    ensures Deliver(l, source, s, destination, n, q, env) != Err(InvalidState)
  {
  }

  /** Where the mint is inherited, every receiver can withhold and the error is indeed impossible. */
  lemma ReceiverCanWithhold(l: Ledger, m: Pubkey, metas: seq<Meta>, n: u64, kind: TransferKind, env: Env)
    requires Inherits(l, m)
    requires |metas| > 0 && IsOpen(l, metas[0].key) && AccountAt(l, metas[0].key).mint == m
    ensures H.Transfer(l, metas, n, kind, env) != Err(InvalidState)
  {
    var at := DestinationIndex(kind) + 1;
    if |metas| > at && n <= AccountAt(l, metas[0].key).amount {
      var a := AccountAt(l, metas[0].key);
      QuotedFeeNeedsConfig(l, m, a, metas, n, kind, env);
      var quoted := QuoteFor(l, a, metas, n, kind, env);
      if quoted.Ok? && metas[0].key != metas[at - 1].key && Ours(At(l, metas[at - 1].key)) {
        var spent := Spend(l, a, quoted.value.permanentDelegate, metas[at], metas[at + 1..], n, true);
        if spent.Ok? {
          SpendEffect(l, a, quoted.value.permanentDelegate, metas[at], metas[at + 1..], n);
          DeliverCanWithhold(l, metas[0].key, spent.value, metas[at - 1].key, n, quoted.value, env);
        }
      }
    }
  }

  /** Where it is not, it is reached: a checked transfer to a survivor that cannot withhold the fee. */
  lemma SurvivorCannotWithhold() returns (l: Ledger, l1: Ledger, l2: Ledger)
    ensures Inv(l)
    ensures Execute(l, Instruction.InitializeMint(0, 5, None, false), [Meta(1, false)], NO_RENT) == Ok(l1)
    ensures Execute(l1, Instruction.MintTo(100, None), [Meta(1, false), Meta(2, false), Meta(5, true)], NO_RENT)
         == Ok(l2)
    ensures H.Transfer(l2, [Meta(2, false), Meta(1, false), Meta(3, false), Meta(4, true)], 100, Checked(0), NO_RENT)
         == Err(InvalidState)
  {
    hide Execute, Inv, SurvivorsLedger, FeeOwed;
    l := SurvivorsLedger();
    SurvivorsLedgerInv();
    SurvivorsThere();
    l1 := SurvivorsMeetMint(l);
    l2 := SurvivorReceives(l, l1);
    SurvivorFee(l2);
    CheckedToSurvivor(l2);
  }

  lemma CheckedToSurvivor(l: Ledger)
    requires IsOpen(l, 2) && IsOpen(l, 3) && IsLive(l, 1) && !Ours(At(l, 4))
    requires At(l, 2).data.len == ACCOUNT_LEN == At(l, 3).data.len && At(l, 1).data.len == 300
    requires AccountAt(l, 2) == Account(1, 4, 100, None, false, None, 0, None, PLAIN_ACCOUNT)
    requires AccountAt(l, 3) == Account(1, 4, 0, None, false, None, 0, None, PLAIN_ACCOUNT)
    requires MintAt(l, 1).decimals == 0 && MintAt(l, 1).ext.paused.None?
    requires MintAt(l, 1).ext.Authority(PermanentDelegate).None?
    requires MintAt(l, 1).ext.fee.Some? && FeeOwed(MintAt(l, 1), NO_RENT.epoch, 100) == Some(1)
    ensures H.Transfer(l, [Meta(2, false), Meta(1, false), Meta(3, false), Meta(4, true)], 100, Checked(0), NO_RENT)
         == Err(InvalidState)
  {
  }

  // ------------------------------------------------------------ non-transferable tokens

  /** From an account that carries the extension tokens leave only by burning, and an account with
      an immutable owner keeps it, over every run. */
  lemma {:induction false} NonTransferableStays(l: Ledger, steps: seq<Step>, k: Pubkey)
    requires StaysOpen(l, steps, k)
    ensures IsOpen(Run(l, steps), k)
    ensures AccountAt(l, k).ext.nonTransferable ==>
              AccountAt(Run(l, steps), k).amount + BurnedFrom(l, steps, k) >= AccountAt(l, k).amount
    ensures AccountAt(l, k).ext.immutableOwner ==> AccountAt(Run(l, steps), k).owner == AccountAt(l, k).owner
    decreases |steps|
  {
    if steps != [] {
      NextEvents(l, steps[0], k);
      NonTransferableStays(Next(l, steps[0]), steps[1..], k);
    }
  }

  ghost function BurnedFrom(l: Ledger, steps: seq<Step>, k: Pubkey): nat
    decreases |steps|
  {
    if steps == [] || !IsOpen(l, k) then 0
    else
      var e := EventFor(l, steps[0], k);
      (if e.Debited? && steps[0].ix.Burn? then e.amount else 0) + BurnedFrom(Next(l, steps[0]), steps[1..], k)
  }

  /** From an account of a non-transferable mint a transfer succeeds exactly when the account lacks
      the extension, so not all that the mint imposes, and the transfer is in order otherwise. */
  lemma NonTransferableExactly(l: Ledger, m: Pubkey, metas: seq<Meta>, n: u64, kind: TransferKind, env: Env)
    requires Inv(l) && IsLive(l, m) && MintAt(l, m).ext.nonTransferable
    requires |metas| > 0 && Survives(l, m, metas[0].key)
    ensures var a := AccountAt(l, metas[0].key);
            && H.Transfer(l, metas, n, kind, env).Ok?
               == (!a.ext.nonTransferable && MayTransfer(l, metas, n, kind, env))
            && (H.Transfer(l, metas, n, kind, env).Ok? ==> !InheritsFrom(a.ext, MintAt(l, m).ext))
  {
    TransferSucceedsExactly(l, metas, n, kind, env);
  }

  /** A non-transferable mint with key 1 and two accounts, such as outlive an earlier mint, that have
      an immutable owner, which minting asks for, and not the extension, which transferring asks for. */
  function BoundLedger(): Ledger {
    var survivor := Account(1, 4, 0, None, false, None, 0, None, PLAIN_ACCOUNT.(immutableOwner := true));
    map[NATIVE_MINT := Cell(0, TOKEN_PROGRAM, MintData(MINT_LEN, Mint(None, 0, 9, None, PLAIN_MINT))),
        1 := Cell(0, TOKEN_PROGRAM, MintData(300, Mint(Some(5), 0, 0, None, PLAIN_MINT.(nonTransferable := true)))),
        2 := Cell(0, TOKEN_PROGRAM, AccountData(200, survivor)),
        3 := Cell(0, TOKEN_PROGRAM, AccountData(200, survivor))]
  }

  lemma BoundLedgerInv()
    ensures Inv(BoundLedger())
  {
    var l := BoundLedger();
    AllZero(l, Lamports);
    forall m: Pubkey ensures m != NATIVE_MINT ==> Conserved(l, m) {
      AllZero(l, Tokens(m));
    }
  }

  lemma BoundMint(l: Ledger) returns (l1: Ledger)
    requires l == BoundLedger()
    ensures Execute(l, Instruction.MintTo(9, None), [Meta(1, false), Meta(2, false), Meta(5, true)], NO_RENT) == Ok(l1)
    ensures l1 == WithMint(WithAccount(l, 2, AccountAt(l, 2).(amount := 9)), 1, MintAt(l, 1).(supply := 9))
  {
    l1 := WithMint(WithAccount(l, 2, AccountAt(l, 2).(amount := 9)), 1, MintAt(l, 1).(supply := 9));
    assert H.MintTo(l, [Meta(1, false), Meta(2, false), Meta(5, true)], 9, None) == Ok(l1);
  }

  lemma BoundMove(l: Ledger, survivor: Account) returns (l2: Ledger)
    requires At(l, 2) == Cell(0, TOKEN_PROGRAM, AccountData(200, survivor.(amount := 9)))
    requires At(l, 3) == Cell(0, TOKEN_PROGRAM, AccountData(200, survivor)) && !Ours(At(l, 4))
    requires survivor == Account(1, 4, 0, None, false, None, 0, None, PLAIN_ACCOUNT.(immutableOwner := true))
    requires IsLive(l, 1) && At(l, 1).data.len == 300 && MintAt(l, 1).decimals == 0
    requires MintAt(l, 1).ext == PLAIN_MINT.(nonTransferable := true)
    ensures Execute(l, Instruction.Transfer(9, Checked(0)),
                    [Meta(2, false), Meta(1, false), Meta(3, false), Meta(4, true)], NO_RENT) == Ok(l2)
    ensures l2 == WithAccount(WithAccount(l, 2, survivor), 3, survivor.(amount := 9))
  {
    l2 := WithAccount(WithAccount(l, 2, survivor), 3, survivor.(amount := 9));
    assert H.Transfer(l, [Meta(2, false), Meta(1, false), Meta(3, false), Meta(4, true)], 9, Checked(0), NO_RENT)
        == Ok(l2);
  }

  lemma BoundThere()
    ensures var l := BoundLedger();
            var survivor := Account(1, 4, 0, None, false, None, 0, None, PLAIN_ACCOUNT.(immutableOwner := true));
            && At(l, 2) == At(l, 3) == Cell(0, TOKEN_PROGRAM, AccountData(200, survivor)) && !Ours(At(l, 4))
            && IsLive(l, 1) && At(l, 1).data.len == 300 && MintAt(l, 1).decimals == 0
            && MintAt(l, 1).ext == PLAIN_MINT.(nonTransferable := true)
  {
  }

  /** So tokens of a non-transferable mint can be transferred between survivors. */
  lemma SurvivorsTransferBound() returns (l: Ledger, l1: Ledger, l2: Ledger)
    ensures Inv(l) && IsLive(l, 1) && MintAt(l, 1).ext.nonTransferable
    ensures Execute(l, Instruction.MintTo(9, None), [Meta(1, false), Meta(2, false), Meta(5, true)], NO_RENT) == Ok(l1)
    ensures Execute(l1, Instruction.Transfer(9, Checked(0)),
                    [Meta(2, false), Meta(1, false), Meta(3, false), Meta(4, true)], NO_RENT) == Ok(l2)
    ensures IsOpen(l2, 3) && AccountAt(l2, 3).mint == 1 && AccountAt(l2, 3).amount == 9
  {
    hide Execute, Inv, BoundLedger;
    l := BoundLedger();
    BoundLedgerInv();
    BoundThere();
    l1 := BoundMint(l);
    l2 := BoundMove(l1, AccountAt(l, 3));
  }
}
