/** Paying out collected transfer fees: what a receiver gains, and when the sum leaves u64. */
module Payouts {
  import opened Prelude
  import opened Ledger
  import opened Multisig
  import opened Totals
  import opened Invariants
  import opened Events
  import opened Runs
  import opened Success
  import opened Overflow
  import opened X = Extensions

  /** What collecting fees from account `k` brings to the receiver: what `k` withholds, if it is the
      receiver itself or an account of this program for the mint. */
  function Due(l: Ledger, m: Pubkey, receiver: Pubkey, k: Pubkey): nat {
    match UnpackAccount(At(l, k).data)
    case Ok(a) => if k == receiver || (Ours(At(l, k)) && a.mint == m) then a.Withheld() else 0
    case Err(_) => 0
  }

  predicate SomeDue(l: Ledger, m: Pubkey, receiver: Pubkey, sources: seq<Meta>) {
    exists i :: 0 <= i < |sources| && Due(l, m, receiver, sources[i].key) > 0
  }

  /** The accounts that `WithdrawWithheldFromAccounts` collects from: the last `count` of those listed
      behind the authority, or all of them. */
  function FeeSources(metas: seq<Meta>, count: u8): seq<Meta> {
    if |metas| < 3 then [] else metas[|metas| - (if count < |metas| - 3 then count else |metas| - 3)..]
  }

  /** Collecting raises the receiver's balance exactly when some listed account owes a fee. */
  lemma {:induction false} CollectRaises(l: Ledger, m: Pubkey, k: Pubkey, sources: seq<Meta>)
    requires UnpackAccount(At(l, k).data).Ok? && UnpackAccount(At(l, k).data).value.mint == m
    requires X.CollectAll(l, m, k, sources).Ok?
    ensures var l' := X.CollectAll(l, m, k, sources).value;
            && UnpackAccount(At(l', k).data).Ok?
            && UnpackAccount(At(l', k).data).value.amount >= UnpackAccount(At(l, k).data).value.amount
            && (UnpackAccount(At(l', k).data).value.amount > UnpackAccount(At(l, k).data).value.amount)
               == SomeDue(l, m, k, sources)
  {
    if sources != [] {
      var x := sources[0].key;
      var l1 := X.CollectOne(l, m, k, x).value;
      CollectOneRaises(l, m, k, x);
      CollectRaises(l1, m, k, sources[1..]);
      if j :| 0 <= j < |sources[1..]| && Due(l1, m, k, sources[1..][j].key) > 0 {
        assert Due(l, m, k, sources[j + 1].key) > 0;
      }
      if j :| 0 <= j < |sources| && Due(l, m, k, sources[j].key) > 0 && Due(l, m, k, x) == 0 {
        assert sources[1..][j - 1] == sources[j];
      }
    }
  }

  lemma CollectOneRaises(l: Ledger, m: Pubkey, k: Pubkey, x: Pubkey)
    requires UnpackAccount(At(l, k).data).Ok? && UnpackAccount(At(l, k).data).value.mint == m
    requires X.CollectOne(l, m, k, x).Ok?
    ensures var l1 := X.CollectOne(l, m, k, x).value;
            && UnpackAccount(At(l1, k).data).Ok? && UnpackAccount(At(l1, k).data).value.mint == m
            && UnpackAccount(At(l1, k).data).value.amount
                 == UnpackAccount(At(l, k).data).value.amount + Due(l, m, k, x)
            && forall y: Pubkey :: Due(l1, m, k, y) == if y == x then 0 else Due(l, m, k, y)
  {
  }

  lemma MintPayout(l: Ledger, m: Pubkey, metas: seq<Meta>, k: Pubkey)
    requires IsOpen(l, k) && AccountAt(l, k).mint == m && IsLive(l, m) && MetaAt(metas, 1).key == k
    requires X.WithdrawWithheldFromMint(l, metas).Ok?
    ensures var l' := X.WithdrawWithheldFromMint(l, metas).value;
            IsOpen(l', k) && AccountAt(l', k).amount == AccountAt(l, k).amount + MintAt(l, m).Withheld()
  {
  }

  lemma AccountsPayout(l: Ledger, m: Pubkey, metas: seq<Meta>, count: u8, k: Pubkey)
    requires IsOpen(l, k) && AccountAt(l, k).mint == m && MetaAt(metas, 1).key == k
    requires X.WithdrawWithheldFromAccounts(l, metas, count).Ok?
    ensures var l', sources := X.WithdrawWithheldFromAccounts(l, metas, count).value, FeeSources(metas, count);
            IsOpen(l', k) ==> (AccountAt(l', k).amount > AccountAt(l, k).amount) == SomeDue(l, m, k, sources)
  {
    CollectRaises(l, m, k, FeeSources(metas, count));
  }

  // ------------------------------------------------------------ exactly what is paid

  /** What all listed accounts together owe, each counted once however often it is listed. */
  function Owed(l: Ledger, m: Pubkey, receiver: Pubkey, sources: seq<Meta>): nat {
    if sources == [] then 0
    else
      (if Listed(sources[0].key, sources[1..]) then 0 else Due(l, m, receiver, sources[0].key))
      + Owed(l, m, receiver, sources[1..])
  }

  lemma ListedCons(x: Pubkey, sources: seq<Meta>)
    requires sources != []
    ensures Listed(x, sources) == (x == sources[0].key || Listed(x, sources[1..]))
  {
    if Listed(x, sources) && x != sources[0].key {
      var i :| 0 <= i < |sources| && sources[i].key == x;
      assert sources[1..][i - 1].key == x;
    }
    if Listed(x, sources[1..]) {
      var i :| 0 <= i < |sources[1..]| && sources[1..][i].key == x;
      assert sources[i + 1].key == x;
    }
  }

  /** Once `x` has paid, the others owe what they did. */
  lemma {:induction false} OwedAfter(l: Ledger, l1: Ledger, m: Pubkey, receiver: Pubkey, x: Pubkey, sources: seq<Meta>)
    requires forall y: Pubkey :: Due(l1, m, receiver, y) == if y == x then 0 else Due(l, m, receiver, y)
    ensures Owed(l, m, receiver, sources)
         == Owed(l1, m, receiver, sources) + if Listed(x, sources) then Due(l, m, receiver, x) else 0
  {
    if sources != [] {
      OwedAfter(l, l1, m, receiver, x, sources[1..]);
      ListedCons(x, sources);
    }
  }

  lemma OwedCons(l: Ledger, l1: Ledger, m: Pubkey, receiver: Pubkey, sources: seq<Meta>)
    requires sources != []
    requires forall y: Pubkey :: Due(l1, m, receiver, y) == if y == sources[0].key then 0 else Due(l, m, receiver, y)
    ensures Owed(l, m, receiver, sources) == Due(l, m, receiver, sources[0].key) + Owed(l1, m, receiver, sources[1..])
  {
    OwedAfter(l, l1, m, receiver, sources[0].key, sources[1..]);
  }

  /** An account of this program for the mint that can withhold fees. */
  predicate Pays(l: Ledger, m: Pubkey, k: Pubkey) {
    && Ours(At(l, k)) && UnpackAccount(At(l, k).data).Ok?
    && UnpackAccount(At(l, k).data).value.mint == m
    && UnpackAccount(At(l, k).data).value.ext.withheld.Some?
  }

  /** The cell once its account withholds nothing any more and holds `gain` more. */
  function Paid(c: Cell, gain: nat): Cell
    requires c.data.AccountData? && c.data.account.amount + gain <= U64_MAX
  {
    var a := c.data.account;
    Cell(c.lamports, c.owner, AccountData(c.data.len,
      a.(amount := a.amount + gain, ext := a.ext.(withheld := Some(0)))))
  }

  /** The cell once its account holds `gain` more. */
  function Gained(c: Cell, gain: nat): Cell
    requires c.data.AccountData? && c.data.account.amount + gain <= U64_MAX
  {
    var a := c.data.account;
    Cell(c.lamports, c.owner, AccountData(c.data.len, a.(amount := a.amount + gain)))
  }

  /** The ledger after `gain` was collected: those listed that pay have paid, the receiver has it. */
  ghost predicate Collected(l: Ledger, l': Ledger, m: Pubkey, receiver: Pubkey, sources: seq<Meta>, gain: nat) {
    && At(l, receiver).data.AccountData? && At(l, receiver).data.account.amount + gain <= U64_MAX
    && At(l', receiver)
       == (if Listed(receiver, sources) then Paid(At(l, receiver), gain) else Gained(At(l, receiver), gain))
    && (forall k: Pubkey :: k != receiver && Listed(k, sources) && Pays(l, m, k) ==> At(l', k) == Paid(At(l, k), 0))
    && (forall k: Pubkey :: k != receiver && !(Listed(k, sources) && Pays(l, m, k)) ==> At(l', k) == At(l, k))
  }

  predicate MayCollect(l: Ledger, m: Pubkey, receiver: Pubkey, sources: seq<Meta>)
    requires At(l, receiver).data.AccountData?
  {
    && !Listed(m, sources)
    && (Listed(receiver, sources) ==> At(l, receiver).data.account.ext.withheld.Some?)
    && At(l, receiver).data.account.amount + Owed(l, m, receiver, sources) <= U64_MAX
  }

  lemma CollectOneGives(l: Ledger, m: Pubkey, receiver: Pubkey, x: Meta)
    requires receiver != m && UnpackAccount(At(l, receiver).data).Ok?
    requires UnpackAccount(At(l, receiver).data).value.mint == m
    ensures X.CollectOne(l, m, receiver, x.key).Ok?
       <==> && x.key != m && (x.key == receiver ==> At(l, receiver).data.account.ext.withheld.Some?)
            && At(l, receiver).data.account.amount + Due(l, m, receiver, x.key) <= U64_MAX
    ensures X.CollectOne(l, m, receiver, x.key).Ok? ==>
              Collected(l, X.CollectOne(l, m, receiver, x.key).value, m, receiver, [x], Due(l, m, receiver, x.key))
  {
    assert forall k: Pubkey :: Listed(k, [x]) == (k == x.key) by {
      assert [x][0].key == x.key;
    }
  }

  lemma {:induction false} DueAtMostOwed(l: Ledger, m: Pubkey, receiver: Pubkey, x: Pubkey, sources: seq<Meta>)
    requires Listed(x, sources)
    ensures Due(l, m, receiver, x) <= Owed(l, m, receiver, sources)
  {
    ListedCons(x, sources);
    if Listed(x, sources[1..]) {
      DueAtMostOwed(l, m, receiver, x, sources[1..]);
    }
  }

  lemma CollectedInTurn(l: Ledger, l1: Ledger, l': Ledger, m: Pubkey, receiver: Pubkey, sources: seq<Meta>,
                        first: nat, others: nat)
    requires sources != [] && receiver != m
    requires Collected(l, l1, m, receiver, [sources[0]], first)
    requires Collected(l1, l', m, receiver, sources[1..], others)
    ensures Collected(l, l', m, receiver, sources, first + others)
  {
    var x, later := sources[0], sources[1..];
    assert forall k: Pubkey :: Listed(k, [x]) == (k == x.key) by {
      assert [x][0].key == x.key;
    }
    forall k: Pubkey
      ensures Listed(k, sources) == (k == x.key || Listed(k, later))
      ensures k != receiver ==> Pays(l1, m, k) == Pays(l, m, k)
    {
      ListedCons(k, sources);
    }
    hide Listed, UnpackAccount;
  }

  /** Collecting from any list of accounts, with repetitions and the receiver itself among them,
      succeeds exactly when the mint is not listed, a listed receiver can withhold, and the sum of
      what is owed fits; each that owes then has paid, once, and the receiver has the sum. */
  lemma {:induction false} CollectGives(l: Ledger, m: Pubkey, receiver: Pubkey, sources: seq<Meta>)
    requires receiver != m && UnpackAccount(At(l, receiver).data).Ok?
    requires UnpackAccount(At(l, receiver).data).value.mint == m
    ensures X.CollectAll(l, m, receiver, sources).Ok? <==> MayCollect(l, m, receiver, sources)
    ensures MayCollect(l, m, receiver, sources) ==>
              Collected(l, X.CollectAll(l, m, receiver, sources).value, m, receiver, sources,
                        Owed(l, m, receiver, sources))
    decreases |sources|
  {
    if sources == [] {
      return;
    }
    var x, later := sources[0], sources[1..];
    CollectOneGives(l, m, receiver, x);
    ListedCons(m, sources);
    ListedCons(receiver, sources);
    assert Listed(x.key, sources);
    DueAtMostOwed(l, m, receiver, x.key, sources);
    if X.CollectOne(l, m, receiver, x.key).Ok? {
      var l1 := X.CollectOne(l, m, receiver, x.key).value;
      CollectOneRaises(l, m, receiver, x.key);
      OwedCons(l, l1, m, receiver, sources);
      CollectGives(l1, m, receiver, later);
      hide Owed, Due, Listed, X.CollectOne;
      assert [x][0].key == x.key;
      if MayCollect(l1, m, receiver, later) {
        var l' := X.CollectAll(l1, m, receiver, later).value;
        CollectedInTurn(l, l1, l', m, receiver, sources, Due(l, m, receiver, x.key), Owed(l1, m, receiver, later));
      }
    }
  }

  /** Collecting fails only on the mint itself, on a receiver that cannot withhold, or on overflow. */
  lemma {:induction false} CollectErrors(l: Ledger, m: Pubkey, receiver: Pubkey, sources: seq<Meta>, e: Error)
    requires receiver != m && UnpackAccount(At(l, receiver).data).Ok?
    requires UnpackAccount(At(l, receiver).data).value.mint == m && X.CollectAll(l, m, receiver, sources) == Err(e)
    ensures match e
            case AccountBorrowFailed => Listed(m, sources)
            case InvalidState => Listed(receiver, sources) && At(l, receiver).data.account.ext.withheld.None?
            case _ => e == Error.Overflow
    decreases |sources|
  {
    ListedCons(m, sources);
    ListedCons(receiver, sources);
    CollectOneGives(l, m, receiver, sources[0]);
    if X.CollectOne(l, m, receiver, sources[0].key).Ok? {
      var l1 := X.CollectOne(l, m, receiver, sources[0].key).value;
      CollectOneRaises(l, m, receiver, sources[0].key);
      CollectErrors(l1, m, receiver, sources[1..], e);
    }
  }

  /** The authority over collected fees lets them go, */
  predicate MayPay(l: Ledger, mint: Mint, authority: Meta, signers: seq<Meta>) {
    && mint.ext.fee.Some? && HolderOf(mint, WithheldWithdraw).Some?
    && Valid(l, HolderOf(mint, WithheldWithdraw).value, authority, signers)
  }

  /** and this account may receive them. */
  predicate MayReceive(l: Ledger, m: Pubkey, k: Pubkey) {
    && k != m && UnpackAccount(At(l, k).data).Ok?
    && UnpackAccount(At(l, k).data).value.mint == m && !UnpackAccount(At(l, k).data).value.frozen
  }

  predicate IsMint(l: Ledger, m: Pubkey) {
    Ours(At(l, m)) && UnpackMint(At(l, m).data).Ok?
  }

  /** Withdrawing from accounts succeeds exactly on the word of the authority over collected fees, for
      a receiver of the mint that is not frozen, and where the accounts can be collected from. */
  lemma AccountsPayoutSucceedsExactly(l: Ledger, metas: seq<Meta>, count: u8)
    ensures X.WithdrawWithheldFromAccounts(l, metas, count).Ok?
       <==> && |metas| >= 3 && IsMint(l, metas[0].key)
            && MayPay(l, At(l, metas[0].key).data.mint, metas[2], metas[3..|metas| - |FeeSources(metas, count)|])
            && MayReceive(l, metas[0].key, metas[1].key)
            && MayCollect(l, metas[0].key, metas[1].key, FeeSources(metas, count))
    ensures X.WithdrawWithheldFromAccounts(l, metas, count).Ok? ==>
              var m, k, sources := metas[0].key, metas[1].key, FeeSources(metas, count);
              Collected(l, X.WithdrawWithheldFromAccounts(l, metas, count).value, m, k, sources, Owed(l, m, k, sources))
  {
    PayoutChecks(l, metas, count);
    hide X.WithdrawWithheldFromAccounts, X.CollectAll, MayCollect, Collected, Owed, FeeSources, MayPay;
    if |metas| >= 3 && MayReceive(l, metas[0].key, metas[1].key) {
      CollectGives(l, metas[0].key, metas[1].key, FeeSources(metas, count));
    }
  }

  lemma PayoutChecks(l: Ledger, metas: seq<Meta>, count: u8)
    ensures |metas| < 3 ==> X.WithdrawWithheldFromAccounts(l, metas, count).Err?
    ensures |metas| >= 3 ==>
              var m, k, sources := metas[0].key, metas[1].key, FeeSources(metas, count);
              var checked := && IsMint(l, m) && MayReceive(l, m, k)
                             && MayPay(l, At(l, m).data.mint, metas[2], metas[3..|metas| - |sources|]);
              && (X.WithdrawWithheldFromAccounts(l, metas, count).Ok? ==> checked)
              && (checked ==> X.WithdrawWithheldFromAccounts(l, metas, count) == X.CollectAll(l, m, k, sources))
  {
    hide X.CollectAll;
    if |metas| >= 3 {
      var sources, rest := FeeSources(metas, count), metas[3..];
      var signers := if |rest| >= count then |rest| - count else 0;
      assert rest[..signers] == metas[3..|metas| - |sources|] && rest[signers..] == sources;
    }
  }

  /** The mint cell with `gain` more, or less, collected in it. */
  function WithCollected(c: Cell, collected: u64): Cell
    requires c.data.MintData? && c.data.mint.ext.fee.Some?
  {
    var mint := c.data.mint;
    Cell(c.lamports, c.owner, MintData(c.data.len,
      mint.(ext := mint.ext.(fee := Some(FeeConfig(mint.ext.fee.value.older, mint.ext.fee.value.newer, collected))))))
  }

  /** Withdrawing from the mint succeeds exactly on that word, for such a receiver, and while the sum
      fits; the receiver then has what the mint had collected, and the mint nothing. */
  lemma MintPayoutSucceedsExactly(l: Ledger, metas: seq<Meta>)
    ensures X.WithdrawWithheldFromMint(l, metas).Ok?
       <==> && |metas| >= 3 && IsMint(l, metas[0].key)
            && MayPay(l, At(l, metas[0].key).data.mint, metas[2], metas[3..])
            && MayReceive(l, metas[0].key, metas[1].key)
            && At(l, metas[1].key).data.account.amount + At(l, metas[0].key).data.mint.Withheld() <= U64_MAX
    ensures X.WithdrawWithheldFromMint(l, metas).Ok? ==>
              var m, k, l' := metas[0].key, metas[1].key, X.WithdrawWithheldFromMint(l, metas).value;
              && At(l', k) == Gained(At(l, k), At(l, m).data.mint.Withheld())
              && At(l', m) == WithCollected(At(l, m), 0)
              && forall x: Pubkey :: x != k && x != m ==> At(l', x) == At(l, x)
  {
  }

  /** The ledger after those listed that pay have paid `gain` into the mint. */
  ghost predicate Harvested(l: Ledger, l': Ledger, m: Pubkey, sources: seq<Meta>, gain: nat) {
    && At(l, m).data.MintData? && At(l, m).data.mint.ext.fee.Some?
    && At(l, m).data.mint.ext.fee.value.withheld + gain <= U64_MAX
    && At(l', m) == WithCollected(At(l, m), At(l, m).data.mint.ext.fee.value.withheld + gain)
    && (forall k: Pubkey :: k != m && Listed(k, sources) && Pays(l, m, k) ==> At(l', k) == Paid(At(l, k), 0))
    && (forall k: Pubkey :: k != m && !(Listed(k, sources) && Pays(l, m, k)) ==> At(l', k) == At(l, k))
  }

  lemma HarvestOneGives(l: Ledger, m: Pubkey, x: Meta)
    requires UnpackMint(At(l, m).data).Ok? && At(l, m).data.mint.ext.fee.Some?
    ensures X.HarvestOne(l, m, x.key).Ok?
       <==> x.key != m && At(l, m).data.mint.Withheld() + Due(l, m, m, x.key) <= U64_MAX
    ensures X.HarvestOne(l, m, x.key).Ok? ==>
              var l1 := X.HarvestOne(l, m, x.key).value;
              && Harvested(l, l1, m, [x], Due(l, m, m, x.key)) && UnpackMint(At(l1, m).data).Ok?
              && forall y: Pubkey :: Due(l1, m, m, y) == if y == x.key then 0 else Due(l, m, m, y)
  {
    assert forall k: Pubkey :: Listed(k, [x]) == (k == x.key) by {
      assert [x][0].key == x.key;
    }
  }

  lemma HarvestedInTurn(l: Ledger, l1: Ledger, l': Ledger, m: Pubkey, sources: seq<Meta>, first: nat, others: nat)
    requires sources != []
    requires Harvested(l, l1, m, [sources[0]], first) && Harvested(l1, l', m, sources[1..], others)
    ensures Harvested(l, l', m, sources, first + others)
  {
    var x, later := sources[0], sources[1..];
    assert forall k: Pubkey :: Listed(k, [x]) == (k == x.key) by {
      assert [x][0].key == x.key;
    }
    forall k: Pubkey
      ensures Listed(k, sources) == (k == x.key || Listed(k, later))
      ensures k != m ==> Pays(l1, m, k) == Pays(l, m, k)
    {
      ListedCons(k, sources);
    }
    hide Listed, UnpackAccount;
  }

  /** Harvesting any list succeeds exactly when the mint is not listed and what is owed fits; the mint
      then has the sum, each account that owes has paid, once, and the others are passed over. */
  lemma {:induction false} HarvestGives(l: Ledger, m: Pubkey, sources: seq<Meta>)
    requires UnpackMint(At(l, m).data).Ok? && At(l, m).data.mint.ext.fee.Some?
    ensures X.HarvestAll(l, m, sources).Ok?
       <==> !Listed(m, sources) && At(l, m).data.mint.Withheld() + Owed(l, m, m, sources) <= U64_MAX
    ensures X.HarvestAll(l, m, sources).Ok? ==>
              Harvested(l, X.HarvestAll(l, m, sources).value, m, sources, Owed(l, m, m, sources))
    decreases |sources|
  {
    if sources == [] {
      return;
    }
    var x, later := sources[0], sources[1..];
    HarvestOneGives(l, m, x);
    ListedCons(m, sources);
    assert Listed(x.key, sources);
    DueAtMostOwed(l, m, m, x.key, sources);
    if X.HarvestOne(l, m, x.key).Ok? {
      var l1 := X.HarvestOne(l, m, x.key).value;
      OwedCons(l, l1, m, m, sources);
      HarvestGives(l1, m, later);
      hide Owed, Due, Listed, X.HarvestOne;
      if X.HarvestAll(l1, m, later).Ok? {
        var l' := X.HarvestAll(l1, m, later).value;
        HarvestedInTurn(l, l1, l', m, sources, Due(l, m, m, x.key), Owed(l1, m, m, later));
      }
    }
  }

  lemma {:induction false} HarvestErrors(l: Ledger, m: Pubkey, sources: seq<Meta>)
    requires UnpackMint(At(l, m).data).Ok? && At(l, m).data.mint.ext.fee.Some?
    requires X.HarvestAll(l, m, sources).Err? && !Listed(m, sources)
    ensures X.HarvestAll(l, m, sources) == Err(Overflow)
    decreases |sources|
  {
    ListedCons(m, sources);
    if X.HarvestOne(l, m, sources[0].key).Ok? {
      HarvestOneGives(l, m, sources[0]);
      HarvestErrors(X.HarvestOne(l, m, sources[0].key).value, m, sources[1..]);
    }
  }

  /** So in a reachable ledger any list behind a fee mint is harvested, nothing left out, unless it
      names the mint itself: the sum always fits. */
  lemma HarvestSucceedsExactly(l: Ledger, metas: seq<Meta>)
    requires Inv(l)
    ensures X.HarvestWithheldToMint(l, metas).Ok?
       <==> && |metas| >= 1 && UnpackMint(At(l, metas[0].key).data).Ok?
            && At(l, metas[0].key).data.mint.ext.fee.Some? && !Listed(metas[0].key, metas[1..])
    ensures X.HarvestWithheldToMint(l, metas).Ok? ==>
              var m := metas[0].key;
              Harvested(l, X.HarvestWithheldToMint(l, metas).value, m, metas[1..], Owed(l, m, m, metas[1..]))
  {
    HarvestInstructionNeverOverflows(l, metas);
    if |metas| >= 1 && UnpackMint(At(l, metas[0].key).data).Ok? && At(l, metas[0].key).data.mint.ext.fee.Some? {
      HarvestGives(l, metas[0].key, metas[1..]);
      if X.HarvestAll(l, metas[0].key, metas[1..]).Err? && !Listed(metas[0].key, metas[1..]) {
        HarvestErrors(l, metas[0].key, metas[1..]);
        assert false;
      }
    }
  }

  // ------------------------------------------------------------ overflow

  /** Paying collected fees out of a mint overflows exactly when the receiver is not an account of
      this program and claims a balance that leaves no room for them. */
  lemma MintPayoutOverflowsExactly(l: Ledger, metas: seq<Meta>)
    requires Inv(l)
    ensures X.WithdrawWithheldFromMint(l, metas) == Err(Error.Overflow)
       <==> && |metas| >= 3 && IsLive(l, metas[0].key)
            && CheckWithdrawAuthority(l, MintAt(l, metas[0].key), metas[2], metas[3..]).Pass?
            && FeeReceiver(l, metas[0].key, metas[1].key).Ok?
            && !Ours(At(l, metas[1].key))
            && FeeReceiver(l, metas[0].key, metas[1].key).value.amount + MintAt(l, metas[0].key).Withheld() > U64_MAX
  {
    if |metas| >= 3 && IsLive(l, metas[0].key) && IsOpen(l, metas[1].key)
       && AccountAt(l, metas[1].key).mint == metas[0].key
    {
      var m := metas[0].key;
      assert CellOk(At(l, m));
      if m != NATIVE_MINT {
        assert Conserved(l, m);
        WeighAtMostTotal(l, Tokens(m), metas[1].key);
      }
    }
    assert |metas| >= 3 && Ours(At(l, metas[0].key)) ==> CellOk(At(l, metas[0].key));
  }

  /** The sources before this one have been collected, and what it owes does not fit any more. */
  predicate StopsAt(l: Ledger, m: Pubkey, receiver: Pubkey, sources: seq<Meta>, i: nat) {
    && i < |sources|
    && var before := X.CollectAll(l, m, receiver, sources[..i]);
       && before.Ok? && UnpackAccount(At(before.value, receiver).data).Ok?
       && UnpackAccount(At(before.value, receiver).data).value.amount
            + Due(before.value, m, receiver, sources[i].key) > U64_MAX
  }

  lemma CollectOneOverflows(l: Ledger, m: Pubkey, receiver: Pubkey, x: Pubkey)
    requires receiver != m && UnpackMint(At(l, m).data).Ok?
    requires UnpackAccount(At(l, receiver).data).Ok? && UnpackAccount(At(l, receiver).data).value.mint == m
    ensures X.CollectOne(l, m, receiver, x) == Err(Overflow)
       <==> UnpackAccount(At(l, receiver).data).value.amount + Due(l, m, receiver, x) > U64_MAX
    ensures X.CollectOne(l, m, receiver, x).Ok? ==>
              UnpackMint(At(X.CollectOne(l, m, receiver, x).value, m).data).Ok?
  {
  }

  lemma {:induction false} CollectOverflowsExactly(l: Ledger, m: Pubkey, receiver: Pubkey, sources: seq<Meta>)
    requires receiver != m && UnpackMint(At(l, m).data).Ok?
    requires UnpackAccount(At(l, receiver).data).Ok? && UnpackAccount(At(l, receiver).data).value.mint == m
    ensures X.CollectAll(l, m, receiver, sources) == Err(Overflow) <==> exists i :: StopsAt(l, m, receiver, sources, i)
    decreases |sources|
  {
    if sources != [] {
      var x, later := sources[0].key, sources[1..];
      CollectOneOverflows(l, m, receiver, x);
      assert sources[..0] == [];
      assert StopsAt(l, m, receiver, sources, 0) <==> X.CollectOne(l, m, receiver, x) == Err(Overflow);
      forall i: nat | i < |later| ensures sources[..i + 1] == [sources[0]] + later[..i] {
      }
      if X.CollectOne(l, m, receiver, x).Ok? {
        var l1 := X.CollectOne(l, m, receiver, x).value;
        CollectOneRaises(l, m, receiver, x);
        CollectOverflowsExactly(l1, m, receiver, later);
        forall i: nat ensures StopsAt(l, m, receiver, sources, i + 1) == StopsAt(l1, m, receiver, later, i) {
          StopsLater(l, m, receiver, sources, i);
        }
        if i: nat :| StopsAt(l, m, receiver, sources, i) {
          assert StopsAt(l1, m, receiver, later, i - 1);
        }
        if i: nat :| StopsAt(l1, m, receiver, later, i) {
          assert StopsAt(l, m, receiver, sources, i + 1);
        }
      }
    }
  }

  lemma StopsLater(l: Ledger, m: Pubkey, receiver: Pubkey, sources: seq<Meta>, i: nat)
    requires sources != [] && X.CollectOne(l, m, receiver, sources[0].key).Ok?
    ensures StopsAt(l, m, receiver, sources, i + 1)
         == StopsAt(X.CollectOne(l, m, receiver, sources[0].key).value, m, receiver, sources[1..], i)
  {
    if i < |sources| - 1 {
      var front := sources[..i + 1];
      assert front[0] == sources[0] && front[1..] == sources[1..][..i];
    }
  }

  /** The handler in two parts: its checks, which give other errors, and the collecting. */
  lemma PayoutParts(l: Ledger, metas: seq<Meta>, count: u8)
    ensures X.WithdrawWithheldFromAccounts(l, metas, count) == Err(Overflow) ==>
              |metas| >= 3 && Ours(At(l, metas[0].key)) && UnpackMint(At(l, metas[0].key).data).Ok?
    ensures |metas| >= 3 && Ours(At(l, metas[0].key)) && UnpackMint(At(l, metas[0].key).data).Ok? ==>
              var m, sources := metas[0].key, FeeSources(metas, count);
              (X.WithdrawWithheldFromAccounts(l, metas, count) == Err(Overflow)) == (
                && CheckWithdrawAuthority(l, UnpackMint(At(l, m).data).value, metas[2],
                                          metas[3..|metas| - |sources|]).Pass?
                && FeeReceiver(l, m, metas[1].key).Ok?
                && X.CollectAll(l, m, metas[1].key, sources) == Err(Overflow))
  {
    if |metas| >= 3 {
      var sources, rest := FeeSources(metas, count), metas[3..];
      var signers := if |rest| >= count then |rest| - count else 0;
      assert rest[..signers] == metas[3..|metas| - |sources|] && rest[signers..] == sources;
    }
  }

  /** Collecting fees from accounts overflows exactly when, everything else being in order, some
      source owes more than still fits; in a reachable ledger only for a receiver of another
      program. */
  lemma AccountsPayoutOverflowsExactly(l: Ledger, metas: seq<Meta>, count: u8)
    requires Inv(l)
    ensures X.WithdrawWithheldFromAccounts(l, metas, count) == Err(Overflow)
       <==> && |metas| >= 3 && IsLive(l, metas[0].key)
            && CheckWithdrawAuthority(l, MintAt(l, metas[0].key), metas[2],
                                      metas[3..|metas| - |FeeSources(metas, count)|]).Pass?
            && FeeReceiver(l, metas[0].key, metas[1].key).Ok?
            && exists i :: StopsAt(l, metas[0].key, metas[1].key, FeeSources(metas, count), i)
    ensures X.WithdrawWithheldFromAccounts(l, metas, count) == Err(Overflow) ==> !Ours(At(l, metas[1].key))
  {
    PayoutParts(l, metas, count);
    hide X.WithdrawWithheldFromAccounts, X.CollectAll, StopsAt, FeeSources;
    if |metas| >= 3 && IsLive(l, metas[0].key) {
      var m, receiver, sources := metas[0].key, metas[1].key, FeeSources(metas, count);
      assert CellOk(At(l, m));
      if FeeReceiver(l, m, receiver).Ok? {
        CollectOverflowsExactly(l, m, receiver, sources);
        if Ours(At(l, receiver)) && MintAt(l, m).ext.fee.Some? {
          CollectFits(l, m, receiver, sources);
        }
      }
    }
  }

  lemma {:induction false} CollectFits(l: Ledger, mint: Pubkey, destination: Pubkey, sources: seq<Meta>)
    requires Inv(l) && mint != NATIVE_MINT && IsLive(l, mint)
    requires IsOpen(l, destination) && AccountAt(l, destination).mint == mint
    ensures CollectAll(l, mint, destination, sources) != Err(Error.Overflow)
    decreases |sources|
  {
    if sources != [] {
      var k := sources[0].key;
      assert Conserved(l, mint);
      WeighAtMostTotal(l, Tokens(mint), destination);
      if k != destination {
        WeighPairAtMostTotal(l, Tokens(mint), destination, k);
      }
      if CollectOne(l, mint, destination, k).Ok? {
        CollectOneInv(l, mint, destination, k);
        CollectFits(CollectOne(l, mint, destination, k).value, mint, destination, sources[1..]);
      }
    }
  }
}
