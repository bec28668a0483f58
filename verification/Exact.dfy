/** Exactly what the handlers that move tokens or lamports do when they succeed. */
module Exact {
  import opened Prelude
  import opened Ledger
  import opened Multisig
  import opened Machine
  import opened Totals
  import opened Effects
  import opened Invariants
  import opened Events
  import opened H = Handlers

  /** The fee that a checked transfer of `n` owes in this epoch. */
  function FeeOwed(mint: Mint, epoch: u64, n: u64): Option<u64> {
    if mint.ext.fee.None? then Some(0) else EpochFee(mint.ext.fee.value, epoch, n)
  }

  /** A transfer between two accounts: the source loses the amount, the receiver gains it less
      the fee and withholds the fee, wrapped SOL takes its lamports along, nothing else moves. */
  lemma TransferExact(l: Ledger, metas: seq<Meta>, n: u64, kind: TransferKind, env: Env)
    requires H.Transfer(l, metas, n, kind, env).Ok?
    requires metas[0].key != metas[DestinationIndex(kind)].key
    ensures var source, destination := metas[0].key, metas[DestinationIndex(kind)].key;
            var l' := H.Transfer(l, metas, n, kind, env).value;
            && IsOpen(l, source) && IsOpen(l, destination) && IsOpen(l', source) && IsOpen(l', destination)
            && var a, a' := AccountAt(l, source), AccountAt(l', source);
               var d, d' := AccountAt(l, destination), AccountAt(l', destination);
               var lamports := if a.native.Some? then n else 0;
               && a'.amount == a.amount - n
               && d'.amount + d'.Withheld() == d.amount + d.Withheld() + n
               && a'.Withheld() == a.Withheld()
               && At(l', source).lamports == At(l, source).lamports - lamports
               && At(l', destination).lamports == At(l, destination).lamports + lamports
               && (forall k: Pubkey :: k != source && k != destination ==> At(l', k) == At(l, k))
    ensures TransferTerms(l, metas, n, kind, env, H.Transfer(l, metas, n, kind, env).value)
  {
    var a, s, d, quote := TransferEffect(l, metas, n, kind, env);
    var at := DestinationIndex(kind) + 1;
    SpendEffect(l, a, quote.permanentDelegate, metas[at], metas[at + 1..], n);
    CreditAdds(d, n, quote.fee);
    TransferHonoursTerms(l, metas, n, kind, env);
  }

  /** The terms of a transfer: an unchecked one is free of fee, hook and pause; a checked one names
      the mint with its decimals, runs unpaused, and withholds the fee the mint's schedule gives,
      which is the fee the caller announced if it announced one; the receiver is not frozen, is
      of the same mint, and has its memo and confidential settings respected. */
  predicate TransferTerms(l: Ledger, metas: seq<Meta>, n: u64, kind: TransferKind, env: Env, l': Ledger)
    requires |metas| > DestinationIndex(kind)
  {
    var source, destination := metas[0].key, metas[DestinationIndex(kind)].key;
    && IsOpen(l, source) && IsOpen(l, destination) && IsOpen(l', destination)
    && var a, d, d' := AccountAt(l, source), AccountAt(l, destination), AccountAt(l', destination);
       && d.mint == a.mint && !a.frozen && !d.frozen && !a.ext.nonTransferable
       && (d.ext.memo == Some(true) ==> env.memoBefore)
       && (d.ext.confidential.Some? ==> d.ext.confidential.value.allowsPlainCredits)
       && (if kind.Unchecked?
           then a.ext.hook.None? && a.ext.withheld.None? && !a.ext.pausable && d'.amount == d.amount + n
           else
             && a.mint == metas[1].key && UnpackMint(At(l, a.mint).data).Ok?
             && var mint := UnpackMint(At(l, a.mint).data).value;
                var fee := FeeOwed(mint, env.epoch, n);
                && mint.decimals == kind.decimals && mint.ext.paused != Some(true)
                && fee.Some? && (kind.CheckedWithFee? ==> kind.fee == fee.value)
                && d'.amount + fee.value == d.amount + n
                && (mint.ext.hook.UnwrapOr(None).Some? ==> env.hookOk && a.ext.hook.Some? && d.ext.hook.Some?))
  }

  lemma TransferHonoursTerms(l: Ledger, metas: seq<Meta>, n: u64, kind: TransferKind, env: Env)
    requires H.Transfer(l, metas, n, kind, env).Ok?
    requires metas[0].key != metas[DestinationIndex(kind)].key
    ensures TransferTerms(l, metas, n, kind, env, H.Transfer(l, metas, n, kind, env).value)
  {
    var a, s, d, quote := TransferEffect(l, metas, n, kind, env);
    QuoteTerms(l, a, metas, n, kind, env);
    assert UpToHook(Credit(d, n, quote.fee).value,
                    AccountAt(H.Transfer(l, metas, n, kind, env).value, metas[DestinationIndex(kind)].key));
  }

  lemma QuoteTerms(l: Ledger, a: Account, metas: seq<Meta>, n: u64, kind: TransferKind, env: Env)
    requires !kind.Unchecked? ==> |metas| >= 2
    requires QuoteFor(l, a, metas, n, kind, env).Ok?
    ensures var q := QuoteFor(l, a, metas, n, kind, env).value;
            if kind.Unchecked? then a.ext.hook.None? && a.ext.withheld.None? && !a.ext.pausable && q.fee == 0
            else
              && a.mint == metas[1].key && UnpackMint(At(l, a.mint).data).Ok?
              && var mint := UnpackMint(At(l, a.mint).data).value;
                 && mint.decimals == kind.decimals && mint.ext.paused != Some(true)
                 && FeeOwed(mint, env.epoch, n) == Some(q.fee) && q.hook == mint.ext.hook.UnwrapOr(None)
  {
  }

  /** The rate and the maximum that the schedules give for an epoch. */
  function RateAt(config: FeeConfig, epoch: u64): (nat, nat) {
    if epoch < config.newer.epoch then (config.older.basisPoints, config.older.maximumFee)
    else (config.newer.basisPoints, config.newer.maximumFee)
  }

  /** What the receiver of a checked transfer is short of the amount: the rate of the epoch applied to
      it and rounded up, or the maximum of the epoch if that is less. That much is withheld. */
  lemma TransferFeeExact(l: Ledger, metas: seq<Meta>, n: u64, kind: TransferKind, env: Env)
    requires H.Transfer(l, metas, n, kind, env).Ok? && !kind.Unchecked?
    requires metas[0].key != metas[2].key
    ensures var l', k := H.Transfer(l, metas, n, kind, env).value, metas[2].key;
            && IsOpen(l, k) && IsOpen(l', k) && UnpackMint(At(l, metas[1].key).data).Ok?
            && var d, d' := AccountAt(l, k), AccountAt(l', k);
               var config := UnpackMint(At(l, metas[1].key).data).value.ext.fee;
               var short := d.amount + n - d'.amount;
               && d'.Withheld() == d.Withheld() + short
               && (config.None? ==> short == 0)
               && (config.Some? ==>
                     var (rate, maximum) := RateAt(config.value, env.epoch);
                     var share := (n * rate + 9_999) / 10_000;
                     short == if share < maximum then share else maximum)
  {
    TransferExact(l, metas, n, kind, env);
    hide H.Transfer, EpochFee, RateAt;
    var config := UnpackMint(At(l, metas[1].key).data).value.ext.fee;
    if config.Some? {
      ScheduledFee(config.value, env.epoch, n);
    }
  }

  lemma ScheduledFee(config: FeeConfig, epoch: u64, n: u64)
    requires EpochFee(config, epoch, n).Some?
    ensures var (rate, maximum) := RateAt(config, epoch);
            var share := (n * rate + 9_999) / 10_000;
            EpochFee(config, epoch, n).value == if share < maximum then share else maximum
  {
    var (rate, maximum) := RateAt(config, epoch);
    assert rate == 0 ==> n * rate == 0;
    assert n == 0 ==> n * rate == 0;
  }

  /** Closing hands every lamport to the destination and leaves an empty system account; a mint
      can be closed only when no account holds anything of it and no fees are left in it. */
  lemma CloseExact(l: Ledger, metas: seq<Meta>, env: Env)
    requires Inv(l) && H.CloseAccount(l, metas, env).Ok?
    ensures var source, destination, l' := metas[0].key, metas[1].key, H.CloseAccount(l, metas, env).value;
            && source != destination && At(l', source) == EMPTY
            && At(l', destination).lamports == At(l, destination).lamports + At(l, source).lamports
            && At(l', destination).data == At(l, destination).data
            && (forall k: Pubkey :: k != source && k != destination ==> At(l', k) == At(l, k))
            && (IsLive(l, source) ==>
                  && source != NATIVE_MINT && MintAt(l, source).Withheld() == 0
                  && forall k: Pubkey :: IsOpen(l, k) && AccountAt(l, k).mint == source ==>
                       AccountAt(l, k).amount == 0 && AccountAt(l, k).Withheld() == 0)
  {
    var source := metas[0].key;
    if IsLive(l, source) && source != NATIVE_MINT {
      assert Conserved(l, source);
      forall k: Pubkey | IsOpen(l, k) && AccountAt(l, k).mint == source
        ensures AccountAt(l, k).amount == 0 && AccountAt(l, k).Withheld() == 0
      {
        WeighAtMostTotal(l, Tokens(source), k);
      }
    }
  }

  /** What is created is rent-exempt, starts in its mint's default state, and a mint whose accounts
      start frozen starts with somebody who can thaw them. */
  lemma BirthExact(l: Ledger, ix: Instruction, metas: seq<Meta>, env: Env, k: Pubkey)
    requires Execute(l, ix, metas, env).Ok?
    ensures var l' := Execute(l, ix, metas, env).value;
            && (!IsOpen(l, k) && IsOpen(l', k) ==>
                  var a := AccountAt(l', k);
                  && ix.InitializeAccount? && At(l', k).lamports >= env.rent(At(l', k).data.Length())
                  && a.owner == (if ix.givenOwner.Some? then ix.givenOwner.value else MetaAt(metas, 2).key)
                  && IsLive(l, a.mint) && a.frozen == (MintAt(l, a.mint).ext.defaultFrozen == Some(true))
                  && (a.native.Some? <==> a.mint == NATIVE_MINT)
                  && (a.native.Some? ==> a.amount + a.native.value == At(l', k).lamports))
            && (!IsLive(l, k) && IsLive(l', k) ==>
                  var m := MintAt(l', k);
                  && ix.InitializeMint? && At(l', k).lamports >= env.rent(At(l', k).data.Length())
                  && m.authority == Some(ix.authority) && m.freezeAuthority == ix.freezeAuthority
                  && m.decimals == ix.decimals && ValidCombination(m.ext)
                  && (m.ext.defaultFrozen == Some(true) ==> m.freezeAuthority.Some?))
  {
    ExecuteEvents(l, ix, metas, env, k);
  }

  lemma FeeIsRoundedUp(fee: TransferFee, amount: u64)
    requires CalculateFee(fee, amount).Some?
    ensures var charged := CalculateFee(fee, amount).value;
            && charged <= fee.maximumFee
            && (charged < fee.maximumFee ==>
                  charged * 10_000 - 10_000 < amount * fee.basisPoints <= charged * 10_000)
  {
  }

  /** The share before the maximum is applied. */
  function RawFee(amount: nat, basisPoints: nat): nat {
    (amount * basisPoints + 10_000 - 1) / 10_000
  }

  lemma FeeIsRaw(fee: TransferFee, amount: u64)
    requires fee.basisPoints <= 10_000
    ensures var raw := RawFee(amount, fee.basisPoints);
            CalculateFee(fee, amount) == Some(if raw <= fee.maximumFee then raw else fee.maximumFee)
  {
    ShareAtMostAmount(amount, fee.basisPoints);
    if amount == 0 || fee.basisPoints == 0 {
      assert amount * fee.basisPoints == 0;
    }
  }

  lemma RawFeeAdds(a: nat, b: nat, basisPoints: nat)
    requires basisPoints <= 10_000
    ensures RawFee(a, basisPoints) <= RawFee(a + b, basisPoints) <= RawFee(a, basisPoints) + RawFee(b, basisPoints)
    ensures RawFee(a + b, basisPoints) <= RawFee(a, basisPoints) + b
  {
    var x, y := a * basisPoints, b * basisPoints;
    assert (a + b) * basisPoints == x + y;
    assert y <= b * 10_000;
  }

  lemma FeeSplits(fee: TransferFee, a: u64, b: u64)
    requires fee.basisPoints <= 10_000 && a + b <= U64_MAX
    ensures CalculateFee(fee, a).Some? && CalculateFee(fee, b).Some? && CalculateFee(fee, a + b).Some?
    ensures var whole := CalculateFee(fee, a + b).value;
            var first, second := CalculateFee(fee, a).value, CalculateFee(fee, b).value;
            first <= whole <= first + second && a - first <= a + b - whole
  {
    FeeIsRaw(fee, a);
    FeeIsRaw(fee, b);
    FeeIsRaw(fee, a + b);
    hide RawFee, CalculateFee;
    RawFeeAdds(a, b, fee.basisPoints);
  }

  /** The fee is the share rounded up, or the maximum if that is less. Splitting a transfer never
      saves fees, sending more never costs less, and what arrives never shrinks when more is sent. */
  lemma FeeOfParts(fee: TransferFee, a: u64, b: u64)
    requires fee.basisPoints <= 10_000 && a + b <= U64_MAX
    ensures CalculateFee(fee, a).Some? && CalculateFee(fee, b).Some? && CalculateFee(fee, a + b).Some?
    ensures var whole := CalculateFee(fee, a + b).value;
            var first, second := CalculateFee(fee, a).value, CalculateFee(fee, b).value;
            && first <= whole <= first + second
            && a - first <= a + b - whole
            && whole <= fee.maximumFee
            && (whole < fee.maximumFee ==>
                  whole * 10_000 - 10_000 < (a + b) * fee.basisPoints <= whole * 10_000)
  {
    hide CalculateFee;
    FeeSplits(fee, a, b);
    FeeIsRoundedUp(fee, a + b);
  }
}
