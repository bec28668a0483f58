/** What a paused mint holds still, and what it does not. */
module Pausing {
  import opened Prelude
  import opened Ledger
  import opened Multisig
  import opened Totals
  import opened Machine
  import opened Invariants
  import opened Events
  import opened Exact
  import opened Runs
  import opened Inheritance
  import opened Payouts
  import opened H = Handlers

  /** The mint is live and paused at every point of the run. */
  ghost predicate StaysPaused(l: Ledger, steps: seq<Step>, m: Pubkey)
    decreases |steps|
  {
    && IsLive(l, m) && MintAt(l, m).ext.paused == Some(true)
    && (steps != [] ==> StaysPaused(Next(l, steps[0]), steps[1..], m))
  }

  /** The step withdraws a positive amount of collected fees to `k`. */
  ghost predicate PaysFees(l: Ledger, s: Step, m: Pubkey, k: Pubkey)
    requires IsLive(l, m)
  {
    && Succeeds(l, s) && MetaAt(s.metas, 1).key == k
    && (|| (s.ix.WithdrawWithheldFromMint? && MintAt(l, m).Withheld() > 0)
        || (s.ix.WithdrawWithheldFromAccounts? && SomeDue(l, m, k, FeeSources(s.metas, s.ix.count))))
  }

  /** The step is a successful unchecked transfer between two accounts. */
  ghost predicate SendsUnchecked(l: Ledger, s: Step) {
    && Succeeds(l, s) && s.ix.Transfer? && s.ix.transferKind.Unchecked?
    && MetaAt(s.metas, 0).key != MetaAt(s.metas, 1).key
  }

  /** What such a transfer takes out of `k`, */
  ghost function UncheckedOut(l: Ledger, s: Step, k: Pubkey): nat {
    if SendsUnchecked(l, s) && MetaAt(s.metas, 0).key == k then s.ix.amount else 0
  }

  /** and what it brings in. */
  ghost function UncheckedIn(l: Ledger, s: Step, k: Pubkey): nat {
    if SendsUnchecked(l, s) && MetaAt(s.metas, 1).key == k then s.ix.amount else 0
  }

  lemma PausedSupply(l: Ledger, m: Pubkey, ix: Instruction, metas: seq<Meta>, env: Env, k: Pubkey)
    requires IsLive(l, m) && MintAt(l, m).ext.paused == Some(true)
    requires IsOpen(l, k) && AccountAt(l, k).mint == m && Handle(l, ix, metas, env).Ok?
    ensures ix.Burn? ==> MetaAt(metas, 0).key != k
    ensures ix.MintTo? ==> MetaAt(metas, 1).key != k
  {
  }

  /** A checked transfer looks at the pause; an unchecked one moves the whole amount. */
  lemma PausedTransfer(l: Ledger, m: Pubkey, metas: seq<Meta>, n: u64, kind: TransferKind, env: Env, k: Pubkey)
    requires IsLive(l, m) && MintAt(l, m).ext.paused == Some(true)
    requires IsOpen(l, k) && AccountAt(l, k).mint == m && H.Transfer(l, metas, n, kind, env).Ok?
    ensures var l', at := H.Transfer(l, metas, n, kind, env).value, DestinationIndex(kind);
            && IsOpen(l', k)
            && (metas[0].key == metas[at].key || (k != metas[0].key && k != metas[at].key) ==>
                  AccountAt(l', k).amount == AccountAt(l, k).amount)
            && (metas[0].key != metas[at].key && k == metas[0].key ==>
                  kind.Unchecked? && AccountAt(l', k).amount + n == AccountAt(l, k).amount)
            && (metas[0].key != metas[at].key && k == metas[at].key ==>
                  kind.Unchecked? && AccountAt(l', k).amount == AccountAt(l, k).amount + n)
  {
    if metas[0].key != metas[DestinationIndex(kind)].key {
      TransferExact(l, metas, n, kind, env);
      hide H.Transfer;
    }
  }

  /** While a mint is paused, the balance of an account of it changes by what unchecked transfers
      take and bring, and by the fees paid out to it, and by nothing else: it falls exactly when
      such a transfer takes something out, and rises exactly when one brings something in or
      collected fees are withdrawn to it. Neither looks at the pause. */
  lemma PausedStep(l: Ledger, s: Step, m: Pubkey, k: Pubkey)
    requires Inv(l) && IsLive(l, m) && MintAt(l, m).ext.paused == Some(true)
    requires IsOpen(l, k) && AccountAt(l, k).mint == m && IsOpen(Next(l, s), k)
    ensures var before, after := AccountAt(l, k).amount, AccountAt(Next(l, s), k).amount;
            && after + UncheckedOut(l, s, k) >= before + UncheckedIn(l, s, k)
            && (after + UncheckedOut(l, s, k) > before + UncheckedIn(l, s, k)) == PaysFees(l, s, m, k)
            && (after < before) == (UncheckedOut(l, s, k) > 0)
            && (after > before) == (UncheckedIn(l, s, k) > 0 || PaysFees(l, s, m, k))
  {
    PausedMoves(l, s, m, k);
    if Succeeds(l, s) && MetaAt(s.metas, 1).key == k {
      if s.ix.WithdrawWithheldFromMint? {
        MintPayout(l, m, s.metas, k);
      } else if s.ix.WithdrawWithheldFromAccounts? {
        AccountsPayout(l, m, s.metas, s.ix.count, k);
      }
    }
  }

  /** The instructions that change a balance of a paused mint. */
  lemma PausedMoves(l: Ledger, s: Step, m: Pubkey, k: Pubkey)
    requires Inv(l) && IsLive(l, m) && MintAt(l, m).ext.paused == Some(true)
    requires IsOpen(l, k) && AccountAt(l, k).mint == m && IsOpen(Next(l, s), k)
    ensures var before, after := AccountAt(l, k).amount, AccountAt(Next(l, s), k).amount;
            var pays := && Succeeds(l, s) && MetaAt(s.metas, 1).key == k
                        && (s.ix.WithdrawWithheldFromMint? || s.ix.WithdrawWithheldFromAccounts?);
            if pays then after >= before
            else after + UncheckedOut(l, s, k) == before + UncheckedIn(l, s, k)
  {
    assert CellOk(At(l, k));
    NextEvents(l, s, k);
    if Succeeds(l, s) {
      PausedSupply(l, m, s.ix, s.metas, s.env, k);
      if s.ix.Transfer? {
        PausedTransfer(l, m, s.metas, s.ix.amount, s.ix.transferKind, s.env, k);
      }
    }
  }

  /** No step of the run pays collected fees out to `k`. */
  ghost predicate NoPayout(l: Ledger, steps: seq<Step>, m: Pubkey, k: Pubkey)
    decreases |steps|
  {
    steps != [] && IsLive(l, m) ==>
      !PaysFees(l, steps[0], m, k) && NoPayout(Next(l, steps[0]), steps[1..], m, k)
  }

  /** All that unchecked transfers take out of `k` in a run, */
  ghost function Sent(l: Ledger, steps: seq<Step>, k: Pubkey): nat
    decreases |steps|
  {
    if steps == [] then 0 else UncheckedOut(l, steps[0], k) + Sent(Next(l, steps[0]), steps[1..], k)
  }

  /** and all they bring in. */
  ghost function Received(l: Ledger, steps: seq<Step>, k: Pubkey): nat
    decreases |steps|
  {
    if steps == [] then 0 else UncheckedIn(l, steps[0], k) + Received(Next(l, steps[0]), steps[1..], k)
  }

  /** For as long as it lasts, pausing holds the supply. A balance moves by unchecked transfers, and
      beyond them it never falls, and is held exactly when no collected fees are paid out to it. */
  lemma {:induction false} PausedOverRuns(l: Ledger, steps: seq<Step>, m: Pubkey, k: Pubkey)
    requires Inv(l) && StaysPaused(l, steps, m)
    requires StaysOpen(l, steps, k) && AccountAt(l, k).mint == m
    ensures IsLive(Run(l, steps), m) && MintAt(Run(l, steps), m).supply == MintAt(l, m).supply
    ensures IsOpen(Run(l, steps), k)
    ensures var before, after := AccountAt(l, k).amount, AccountAt(Run(l, steps), k).amount;
            && after + Sent(l, steps, k) >= before + Received(l, steps, k)
            && (after + Sent(l, steps, k) == before + Received(l, steps, k)) == NoPayout(l, steps, m, k)
    decreases |steps|
  {
    if steps != [] {
      var l1 := Next(l, steps[0]);
      NextInv(l, steps[0]);
      NextMint(l, steps[0], m);
      NextEvents(l, steps[0], k);
      PausedStep(l, steps[0], m, k);
      PausedOverRuns(l1, steps[1..], m, k);
    }
  }

  /** Where the mint is inherited there are no unchecked transfers. */
  lemma {:induction false} InheritedSendsNothing(l: Ledger, steps: seq<Step>, m: Pubkey, k: Pubkey)
    requires Inherits(l, m) && StaysPaused(l, steps, m)
    requires StaysOpen(l, steps, k) && AccountAt(l, k).mint == m
    ensures Sent(l, steps, k) == 0 && Received(l, steps, k) == 0
    decreases |steps|
  {
    if steps != [] {
      var s := steps[0];
      NextMint(l, s, m);
      NextEvents(l, s, k);
      InheritStep(l, s, m);
      if SendsUnchecked(l, s) && (MetaAt(s.metas, 0).key == k || MetaAt(s.metas, 1).key == k) {
        SentAlike(l, s.metas, s.ix.amount, s.env);
        UncheckedTransferRefused(l, m, s.metas, s.ix.amount, s.env);
      }
      InheritedSendsNothing(Next(l, s), steps[1..], m, k);
    }
  }

  lemma SentAlike(l: Ledger, metas: seq<Meta>, n: u64, env: Env)
    requires H.Transfer(l, metas, n, Unchecked, env).Ok? && metas[0].key != metas[1].key
    ensures IsOpen(l, metas[0].key) && IsOpen(l, metas[1].key)
    ensures AccountAt(l, metas[0].key).mint == AccountAt(l, metas[1].key).mint
  {
  }

  /** So there a balance never falls, and is constant exactly without payouts. */
  lemma PausedAndInherited(l: Ledger, steps: seq<Step>, m: Pubkey, k: Pubkey)
    requires Inv(l) && Inherits(l, m) && StaysPaused(l, steps, m)
    requires StaysOpen(l, steps, k) && AccountAt(l, k).mint == m
    ensures IsOpen(Run(l, steps), k) && AccountAt(Run(l, steps), k).amount >= AccountAt(l, k).amount
    ensures AccountAt(Run(l, steps), k).amount == AccountAt(l, k).amount <==> NoPayout(l, steps, m, k)
  {
    PausedOverRuns(l, steps, m, k);
    InheritedSendsNothing(l, steps, m, k);
  }

  /** A paused mint with key 1 that has collected five tokens of fees, and its empty account 2. */
  function PausedLedger(): Ledger {
    var rate := TransferFee(0, 0, 0);
    var ext := PLAIN_MINT.(authorities := map[WithheldWithdraw := Some(3)],
                           fee := Some(FeeConfig(rate, rate, 5)), paused := Some(true));
    var account := Account(1, 4, 0, None, false, None, 0, None,
                           PLAIN_ACCOUNT.(withheld := Some(0), pausable := true));
    map[NATIVE_MINT := Cell(0, TOKEN_PROGRAM, MintData(MINT_LEN, Mint(None, 0, 9, None, PLAIN_MINT))),
        1 := Cell(0, TOKEN_PROGRAM, MintData(300, Mint(None, 5, 0, None, ext))),
        2 := Cell(0, TOKEN_PROGRAM, AccountData(200, account))]
  }

  lemma PausedLedgerInv()
    ensures Inv(PausedLedger())
  {
    var l := PausedLedger();
    AllZero(l, Lamports);
    forall m: Pubkey ensures m != NATIVE_MINT ==> Conserved(l, m) {
      AllZero(l, Tokens(m));
    }
  }

  /** A payout during a pause does happen: the fees collected in the mint reach the account. */
  lemma PausedBalanceCanRise() returns (l: Ledger, s: Step)
    ensures Inv(l) && Inherits(l, 1) && MintAt(l, 1).ext.paused == Some(true)
    ensures IsOpen(l, 2) && AccountAt(l, 2).mint == 1 && AccountAt(l, 2).amount == 0
    ensures Succeeds(l, s) && IsOpen(Next(l, s), 2) && AccountAt(Next(l, s), 2).amount == 5
  {
    l := PausedLedger();
    s := Instruct(Instruction.WithdrawWithheldFromMint, [Meta(1, false), Meta(2, false), Meta(3, true)],
                  Env(_ => 0, false, false, 0, false, false));
    PausedLedgerInv();
    WitnessPays(l, s);
  }

  lemma WitnessPays(l: Ledger, s: Step)
    requires s.Instruct? && s.ix.WithdrawWithheldFromMint?
    requires s.metas == [Meta(1, false), Meta(2, false), Meta(3, true)]
    requires !Ours(At(l, 3)) && Ours(At(l, 1)) && Ours(At(l, 2))
    requires UnpackMint(At(l, 1).data).Ok? && UnpackAccount(At(l, 2).data).Ok?
    requires var mint, a := At(l, 1).data.mint, At(l, 2).data.account;
             && mint.ext.Authority(WithheldWithdraw) == Some(3) && mint.Withheld() == 5
             && a.mint == 1 && a.amount == 0 && !a.frozen
    ensures Succeeds(l, s) && IsOpen(Next(l, s), 2) && AccountAt(Next(l, s), 2).amount == 5
  {
    assert X.CheckWithdrawAuthority(l, At(l, 1).data.mint, s.metas[2], s.metas[3..]) == Pass;
    assert X.WithdrawWithheldFromMint(l, s.metas).Ok?;
  }

  /** A paused mint with key 1 and two accounts that do not carry the account side of it. */
  function LeakyLedger(): Ledger {
    var account := Account(1, 4, 100, None, false, None, 0, None, PLAIN_ACCOUNT);
    map[NATIVE_MINT := Cell(0, TOKEN_PROGRAM, MintData(MINT_LEN, Mint(None, 0, 9, None, PLAIN_MINT))),
        1 := Cell(0, TOKEN_PROGRAM, MintData(300, Mint(None, 100, 0, None, PLAIN_MINT.(paused := Some(true))))),
        2 := Cell(0, TOKEN_PROGRAM, AccountData(ACCOUNT_LEN, account)),
        3 := Cell(0, TOKEN_PROGRAM, AccountData(ACCOUNT_LEN, account.(amount := 0)))]
  }

  lemma LeakyLedgerInv()
    ensures Inv(LeakyLedger())
  {
    var l := LeakyLedger();
    var rest := l - {2};
    assert l == rest[2 := l[2]];
    AllZero(l, Lamports);
    forall m: Pubkey ensures m != NATIVE_MINT ==> Conserved(l, m) {
      AllZero(rest, Tokens(m));
      TotalUpdate(rest, Tokens(m), 2, l[2]);
    }
  }

  /** An unchecked transfer during a pause does happen: it empties the one account into the other. */
  lemma PausedBalanceCanFall() returns (l: Ledger, s: Step)
    ensures Inv(l) && IsLive(l, 1) && MintAt(l, 1).ext.paused == Some(true)
    ensures IsOpen(l, 2) && AccountAt(l, 2).mint == 1 && AccountAt(l, 2).amount == 100
    ensures Succeeds(l, s) && IsOpen(Next(l, s), 2) && AccountAt(Next(l, s), 2).amount == 0
  {
    l := LeakyLedger();
    s := Instruct(Instruction.Transfer(100, Unchecked), [Meta(2, false), Meta(3, false), Meta(4, true)], NO_RENT);
    LeakyLedgerInv();
    assert H.Transfer(l, s.metas, 100, Unchecked, NO_RENT).Ok?;
  }
}
