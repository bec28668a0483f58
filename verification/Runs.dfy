/** What holds over every run: any sequence of instructions, successful or not, with any
    behaviour of other programs in between. */
module Runs {
  import opened Prelude
  import opened Ledger
  import opened Multisig
  import opened Totals
  import opened Machine
  import opened Invariants
  import opened Events
  import opened Signatures
  import opened H = Handlers

  // ------------------------------------------------------------ supply, lamports, wrapped SOL

  /** A first ledger: the native mint as it is created, and nothing else of this program. */
  lemma GenesisInv(l: Ledger)
    requires NativeMintCell(At(l, NATIVE_MINT)) && At(l, NATIVE_MINT).data.len == MINT_LEN
    requires forall k: Pubkey :: k != NATIVE_MINT ==> !Ours(At(l, k))
    requires Total(l, Lamports) <= U64_MAX
    ensures Inv(l)
  {
    forall m: Pubkey ensures m != NATIVE_MINT ==> Conserved(l, m) {
      forall k: Pubkey ensures Weigh(At(l, k), Tokens(m)) == 0 {
        assert k != NATIVE_MINT ==> !Ours(At(l, k));
      }
      AllZero(l, Tokens(m));
    }
  }

  /** Tokens are conserved: at the end of every run the accounts of a mint hold exactly the
      supply the mint records, less the fees collected in the mint; nothing without a mint. */
  lemma SupplyConserved(l: Ledger, steps: seq<Step>, m: Pubkey)
    requires Inv(l) && m != NATIVE_MINT
    ensures var l' := Run(l, steps);
            Total(l', Tokens(m)) ==
              if IsLive(l', m) then MintAt(l', m).supply - MintAt(l', m).Withheld() else 0
  {
    RunInv(l, steps);
    assert Conserved(Run(l, steps), m);
  }

  lemma LamportsConserved(l: Ledger, steps: seq<Step>)
    requires Inv(l)
    ensures Total(Run(l, steps), Lamports) == Total(l, Lamports)
  {
    RunInv(l, steps);
  }

  /** Wrapped SOL stays backed, and an account is native exactly when its mint is. */
  lemma WrappedSolBacked(l: Ledger, steps: seq<Step>, k: Pubkey)
    requires Inv(l) && IsOpen(Run(l, steps), k)
    ensures var a := AccountAt(Run(l, steps), k);
            && (a.native.Some? <==> a.mint == NATIVE_MINT)
            && (a.native.Some? ==> a.amount + a.native.value <= At(Run(l, steps), k).lamports)
  {
    RunInv(l, steps);
    assert CellOk(At(Run(l, steps), k));
  }

  /** A withdrawal to another account leaves the source its rent minimum, to the lamport, and brings
      the rest there; nothing else changes. */
  lemma WithdrawLeavesRent(l: Ledger, metas: seq<Meta>, env: Env)
    requires H.WithdrawExcess(l, metas, env).Ok?
    ensures var l' := H.WithdrawExcess(l, metas, env).value;
            var source, destination := metas[0].key, metas[1].key;
            if source == destination then forall k: Pubkey :: At(l', k) == At(l, k)
            else
              var excess := At(l, source).lamports - env.rent(At(l, source).data.Length());
              && At(l', source) == At(l, source).(lamports := env.rent(At(l, source).data.Length()))
              && 0 <= excess && At(l, destination).lamports + excess <= U64_MAX
              && At(l', destination) == At(l, destination).(lamports := At(l, destination).lamports + excess)
              && forall k: Pubkey :: k != source && k != destination ==> At(l', k) == At(l, k)
  {
  }

  // ------------------------------------------------------------ one account through a run

  /** The event a step is for an open account; failing steps and other programs are none. */
  ghost function EventFor(l: Ledger, s: Step, k: Pubkey): Event
    requires IsOpen(l, k)
  {
    if Succeeds(l, s) then EventOf(l, s.ix, s.metas, Next(l, s), k) else Quiet
  }

  lemma NextEvents(l: Ledger, s: Step, k: Pubkey)
    requires IsOpen(l, k)
    ensures IsOpen(Next(l, s), k) == !EventFor(l, s, k).Closed?
    ensures IsOpen(Next(l, s), k) ==> Follows(AccountAt(l, k), EventFor(l, s, k), AccountAt(Next(l, s), k))
    ensures Succeeds(l, s) ==> Permitted(l, s.ix, s.metas, s.env, k, EventFor(l, s, k))
    ensures Succeeds(l, s) && IsOpen(Next(l, s), k) ==>
              ExtensionsKept(AccountAt(l, k).ext, AccountAt(Next(l, s), k).ext, s.env)
    ensures !Succeeds(l, s) ==> AccountAt(Next(l, s), k) == AccountAt(l, k)
  {
    if Succeeds(l, s) {
      ExecuteEvents(l, s.ix, s.metas, s.env, k);
    } else if s.Outside? && OutsideAllowed(l, s.after) {
      assert OutsideCell(At(l, k), At(s.after, k));
    }
  }

  lemma NextMint(l: Ledger, s: Step, m: Pubkey)
    requires IsLive(l, m)
    ensures IsLive(Next(l, s), m) || (Succeeds(l, s) && s.ix.CloseAccount? && MintAt(l, m).supply == 0)
    ensures IsLive(Next(l, s), m) ==>
              if Succeeds(l, s) then MintKept(s.ix, MintAt(l, m), MintAt(Next(l, s), m))
              else MintAt(Next(l, s), m) == MintAt(l, m)
  {
    if Succeeds(l, s) {
      ExecuteEvents(l, s.ix, s.metas, s.env, m);
    } else if s.Outside? && OutsideAllowed(l, s.after) {
      assert OutsideCell(At(l, m), At(s.after, m));
    }
  }

  /** The account is open at every point of the run: it is never closed. */
  ghost predicate StaysOpen(l: Ledger, steps: seq<Step>, k: Pubkey)
    decreases |steps|
  {
    IsOpen(l, k) && (steps != [] ==> StaysOpen(Next(l, steps[0]), steps[1..], k))
  }

  ghost predicate StaysLive(l: Ledger, steps: seq<Step>, m: Pubkey)
    decreases |steps|
  {
    IsLive(l, m) && (steps != [] ==> StaysLive(Next(l, steps[0]), steps[1..], m))
  }

  /** No event of the run for this account is one of the bad ones. */
  ghost predicate Avoids(l: Ledger, steps: seq<Step>, k: Pubkey, bad: Event -> bool)
    decreases |steps|
  {
    steps != [] && IsOpen(l, k) ==>
      !bad(EventFor(l, steps[0], k)) && Avoids(Next(l, steps[0]), steps[1..], k, bad)
  }

  lemma {:induction false} StaysOpenToEnd(l: Ledger, steps: seq<Step>, k: Pubkey)
    requires StaysOpen(l, steps, k)
    ensures IsOpen(Run(l, steps), k)
    ensures AccountAt(Run(l, steps), k).mint == AccountAt(l, k).mint
    decreases |steps|
  {
    if steps != [] {
      NextEvents(l, steps[0], k);
      StaysOpenToEnd(Next(l, steps[0]), steps[1..], k);
    }
  }

  lemma {:induction false} StaysLiveToEnd(l: Ledger, steps: seq<Step>, m: Pubkey)
    requires StaysLive(l, steps, m)
    ensures IsLive(Run(l, steps), m)
    decreases |steps|
  {
    if steps != [] {
      StaysLiveToEnd(Next(l, steps[0]), steps[1..], m);
    }
  }

  // ------------------------------------------------------------ debits

  /** Nothing leaves an account unless its permanent delegate, its delegate within the allowance,
      or its owner authorized it; the one exception is burning from an account that the system
      program or the incinerator owns. */
  lemma EveryDebitAuthorized(l: Ledger, s: Step, k: Pubkey)
    requires IsOpen(l, k) && IsOpen(Next(l, s), k)
    requires AccountAt(Next(l, s), k).amount < AccountAt(l, k).amount
    ensures Succeeds(l, s) && (s.ix.Transfer? || s.ix.Burn?) && MetaAt(s.metas, 0).key == k
    ensures var a, gone := AccountAt(l, k), AccountAt(l, k).amount - AccountAt(Next(l, s), k).amount;
            var key := Authority(s.ix, s.metas).key;
            && gone == s.ix.amount
            && (|| (PermanentDelegateFor(l, a, s.ix) == Some(key) && OnTheWordOf(l, s.ix, s.metas, key))
                || (a.delegate == Some(key) && gone <= a.delegatedAmount && OnTheWordOf(l, s.ix, s.metas, key))
                || OnTheWordOf(l, s.ix, s.metas, a.owner)
                || (s.ix.Burn? && a.OwnedBySystemOrIncinerator()))
  {
    NextEvents(l, s, k);
    WhoseWord(l, s, Authority(s.ix, s.metas).key);
    WhoseWord(l, s, AccountAt(l, k).owner);
  }

  lemma WhoseWord(l: Ledger, s: Step, key: Pubkey)
    requires s.Instruct?
    ensures Authorized(l, s.ix, s.metas, key) ==> OnTheWordOf(l, s.ix, s.metas, key)
  {
    if Authorized(l, s.ix, s.metas, key) {
      AuthorizedIsWord(l, s.ix, s.metas, key);
    }
  }

  /** Put in terms of signatures: a debit in a reachable ledger has a signer in its list, unless
      the account is owned by the system program or the incinerator and burned, or the key whose
      word it took is an unclaimed account. */
  lemma EveryDebitSigned(l: Ledger, s: Step, k: Pubkey)
    requires Inv(l) && IsOpen(l, k) && IsOpen(Next(l, s), k)
    requires AccountAt(Next(l, s), k).amount < AccountAt(l, k).amount
    ensures s.Instruct?
    ensures || (exists x :: x in [Authority(s.ix, s.metas)] + Signers(s.ix, s.metas) && x.signer)
            || (s.ix.Burn? && AccountAt(l, k).OwnedBySystemOrIncinerator())
            || IsUnclaimed(At(l, Authority(s.ix, s.metas).key))
  {
    EveryDebitAuthorized(l, s, k);
    var authority, signers := Authority(s.ix, s.metas), Signers(s.ix, s.metas);
    if ValidateOwner(l, authority.key, authority, signers).Pass? && !IsUnclaimed(At(l, authority.key)) {
      SomebodySigned(l, authority.key, authority, signers);
    }
  }

  /** An account disappears only empty or native, without withheld fees, closed by its close
      authority (its owner when there is none) or, for an unowned account, into the incinerator. */
  lemma EveryCloseAuthorized(l: Ledger, s: Step, k: Pubkey)
    requires IsOpen(l, k) && !IsOpen(Next(l, s), k)
    ensures Succeeds(l, s) && s.ix.CloseAccount? && MetaAt(s.metas, 0).key == k
    ensures var a := AccountAt(l, k);
            && (a.native.None? ==> a.amount == 0) && a.Withheld() == 0
            && (if a.OwnedBySystemOrIncinerator() then MetaAt(s.metas, 1).key == INCINERATOR
                else OnTheWordOf(l, s.ix, s.metas, a.Closer()))
  {
    NextEvents(l, s, k);
    WhoseWord(l, s, AccountAt(l, k).Closer());
  }

  /** What the delegate has taken in a run. */
  ghost function DelegateSpent(l: Ledger, steps: seq<Step>, k: Pubkey): nat
    decreases |steps|
  {
    if steps == [] || !IsOpen(l, k) then 0
    else
      var e := EventFor(l, steps[0], k);
      (if e.Debited? && e.arm == ByDelegate then e.amount else 0) + DelegateSpent(Next(l, steps[0]), steps[1..], k)
  }

  /** Between approvals the allowance is a budget: what is left plus what the delegate took
      never exceeds what there was, and equals it unless the allowance was revoked or the owner
      changed. Nobody else becomes delegate. */
  lemma {:induction false} AllowanceIsABudget(l: Ledger, steps: seq<Step>, k: Pubkey)
    requires StaysOpen(l, steps, k) && Avoids(l, steps, k, (e: Event) => e.Approved?)
    ensures IsOpen(Run(l, steps), k)
    ensures var a, a' := AccountAt(l, k), AccountAt(Run(l, steps), k);
            && a'.delegatedAmount + DelegateSpent(l, steps, k) <= a.delegatedAmount
            && (a'.delegate == a.delegate || a'.delegate.None?)
            && (Avoids(l, steps, k, (e: Event) => e.Revoked? || e.OwnerSet?) ==>
                  a'.delegatedAmount + DelegateSpent(l, steps, k) == a.delegatedAmount)
    decreases |steps|
  {
    if steps != [] {
      AllowanceStep(l, steps[0], k);
      AllowanceIsABudget(Next(l, steps[0]), steps[1..], k);
    }
  }

  lemma AllowanceStep(l: Ledger, s: Step, k: Pubkey)
    requires IsOpen(l, k) && IsOpen(Next(l, s), k) && !EventFor(l, s, k).Approved?
    ensures var a, a', e := AccountAt(l, k), AccountAt(Next(l, s), k), EventFor(l, s, k);
            var taken: nat := if e.Debited? && e.arm == ByDelegate then e.amount else 0;
            && (a'.delegate == a.delegate || a'.delegate.None?)
            && a'.delegatedAmount + taken <= a.delegatedAmount
            && (!e.Revoked? && !e.OwnerSet? ==> a'.delegatedAmount + taken == a.delegatedAmount)
  {
    NextEvents(l, s, k);
  }

  /** Transferring to oneself changes nothing at all, whoever authorizes it. */
  lemma SelfTransferIsFree(l: Ledger, metas: seq<Meta>, n: u64, kind: TransferKind, env: Env)
    requires H.Transfer(l, metas, n, kind, env).Ok?
    requires metas[0].key == metas[DestinationIndex(kind)].key
    ensures H.Transfer(l, metas, n, kind, env).value == l
  {
  }

  /** In every reachable ledger an account without delegate has no allowance. */
  lemma NoDelegateNoAllowance(l: Ledger, steps: seq<Step>, k: Pubkey)
    requires Inv(l) && IsOpen(Run(l, steps), k) && AccountAt(Run(l, steps), k).delegate.None?
    ensures AccountAt(Run(l, steps), k).delegatedAmount == 0
  {
    RunInv(l, steps);
    assert CellOk(At(Run(l, steps), k));
  }

  /** The converse fails: approving nothing appoints a delegate with no allowance. */
  lemma ZeroApprovalAppoints(l: Ledger, metas: seq<Meta>, decimals: Option<u8>, env: Env)
    requires H.Approve(l, metas, 0, decimals, env).Ok? && Ours(At(l, metas[0].key))
    ensures var l', k := H.Approve(l, metas, 0, decimals, env).value, metas[0].key;
            IsOpen(l', k) && AccountAt(l', k).delegate.Some? && AccountAt(l', k).delegatedAmount == 0
  {
  }

  // ------------------------------------------------------------ the CPI guard

  /** Every instruction of the run is called from another program. */
  predicate AllCpi(steps: seq<Step>) {
    forall i :: 0 <= i < |steps| ==> steps[i].Instruct? ==> steps[i].env.inCpi
  }

  /** Everything that left the account in a run, by whichever arm. */
  ghost function Outflow(l: Ledger, steps: seq<Step>, k: Pubkey): nat
    decreases |steps|
  {
    if steps == [] || !IsOpen(l, k) then 0
    else
      var e := EventFor(l, steps[0], k);
      (if e.Debited? then e.amount else 0) + Outflow(Next(l, steps[0]), steps[1..], k)
  }

  /** Whenever the mint is live during the run it has no permanent delegate. */
  ghost predicate NoPermanentDelegate(l: Ledger, steps: seq<Step>, m: Pubkey)
    decreases |steps|
  {
    && (IsLive(l, m) ==> MintAt(l, m).PermanentDelegate().None?)
    && (steps != [] ==> NoPermanentDelegate(Next(l, steps[0]), steps[1..], m))
  }

  /** The guard, for a mint without permanent delegate: calls from other programs, however many,
      keep the owner, can only clear the delegate and the close authority, and cannot take more
      than the allowance there was. The mint may be closed and created anew on the way. */
  lemma {:induction false} GuardBoundsOutflow(l: Ledger, steps: seq<Step>, k: Pubkey)
    requires Inv(l) && StaysOpen(l, steps, k) && AllCpi(steps)
    requires AccountAt(l, k).Guarded() && !AccountAt(l, k).OwnedBySystemOrIncinerator()
    requires NoPermanentDelegate(l, steps, AccountAt(l, k).mint)
    ensures IsOpen(Run(l, steps), k)
    ensures var a, a' := AccountAt(l, k), AccountAt(Run(l, steps), k);
            && a'.owner == a.owner && a'.Guarded()
            && (a'.delegate == a.delegate || a'.delegate.None?)
            && (a'.closeAuthority == a.closeAuthority || a'.closeAuthority.None?)
            && Outflow(l, steps, k) + a'.delegatedAmount <= a.delegatedAmount
    decreases |steps|
  {
    if steps != [] {
      var l1 := Next(l, steps[0]);
      assert steps[0].Instruct? ==> steps[0].env.inCpi;
      assert forall i :: 0 <= i < |steps[1..]| ==> steps[1..][i] == steps[i + 1];
      NextInv(l, steps[0]);
      GuardStep(l, steps[0], k);
      GuardBoundsOutflow(l1, steps[1..], k);
    }
  }

  lemma GuardStep(l: Ledger, s: Step, k: Pubkey)
    requires Inv(l) && IsOpen(l, k) && IsOpen(Next(l, s), k) && (s.Instruct? ==> s.env.inCpi)
    requires AccountAt(l, k).Guarded() && !AccountAt(l, k).OwnedBySystemOrIncinerator()
    requires IsLive(l, AccountAt(l, k).mint) ==> MintAt(l, AccountAt(l, k).mint).PermanentDelegate().None?
    ensures var a, a', e := AccountAt(l, k), AccountAt(Next(l, s), k), EventFor(l, s, k);
            && a'.owner == a.owner && a'.mint == a.mint && a'.Guarded()
            && (a'.delegate == a.delegate || a'.delegate.None?)
            && (a'.closeAuthority == a.closeAuthority || a'.closeAuthority.None?)
            && (if e.Debited? then e.amount else 0) + a'.delegatedAmount <= a.delegatedAmount
  {
    NextEvents(l, s, k);
    var m := AccountAt(l, k).mint;
    assert CellOk(At(l, k));
    if !IsLive(l, m) && m != NATIVE_MINT {
      NothingWithoutMint(l, m, k);
    }
  }

  // ------------------------------------------------------------ freezing

  /** From a frozen account nothing moves until the freeze authority thaws it: balance, owner,
      delegate, allowance and close authority stay. It can be closed only when it is empty. */
  lemma {:induction false} FrozenStaysPut(l: Ledger, steps: seq<Step>, k: Pubkey)
    requires Inv(l) && IsOpen(l, k) && AccountAt(l, k).frozen
    requires Avoids(l, steps, k, (e: Event) => e == FreezeSet(false))
    requires AccountAt(l, k).amount > 0 || StaysOpen(l, steps, k)
    ensures IsOpen(Run(l, steps), k)
    ensures Base(AccountAt(Run(l, steps), k)) == Base(AccountAt(l, k))
    decreases |steps|
  {
    if steps != [] {
      assert CellOk(At(l, k));
      NextInv(l, steps[0]);
      NextEvents(l, steps[0], k);
      FrozenStaysPut(Next(l, steps[0]), steps[1..], k);
    }
  }

  // ------------------------------------------------------------ authorities over a mint

  function HolderOf(mint: Mint, kind: AuthorityType): Option<Pubkey> {
    if kind == MintTokens then mint.authority
    else if kind == FreezeAccount then mint.freezeAuthority
    else mint.ext.Authority(kind)
  }

  /** An authority over a mint changes hands only by `SetAuthority` for exactly that authority, on
      its holder's word, and to the one the holder names. */
  lemma EveryHandoverAuthorized(l: Ledger, s: Step, m: Pubkey, kind: AuthorityType)
    requires IsLive(l, m) && IsLive(Next(l, s), m)
    requires HolderOf(MintAt(Next(l, s), m), kind) != HolderOf(MintAt(l, m), kind)
    ensures Succeeds(l, s) && s.ix.SetAuthority? && s.ix.kind == kind && MetaAt(s.metas, 0).key == m
    ensures HolderOf(MintAt(l, m), kind).Some? && OnTheWordOf(l, s.ix, s.metas, HolderOf(MintAt(l, m), kind).value)
    ensures HolderOf(MintAt(Next(l, s), m), kind) == s.ix.next
  {
    NextMint(l, s, m);
    SetAuthorityHandsOver(l, s.metas, s.ix.kind, s.ix.next, s.env, m, kind);
    WhoseWord(l, s, HolderOf(MintAt(l, m), kind).value);
  }

  lemma SetAuthorityHandsOver(l: Ledger, metas: seq<Meta>, named: AuthorityType, next: Option<Pubkey>, env: Env,
                              m: Pubkey, kind: AuthorityType)
    requires H.SetAuthority(l, metas, named, next, env).Ok? && IsLive(l, m)
    requires IsLive(H.SetAuthority(l, metas, named, next, env).value, m)
    requires HolderOf(MintAt(H.SetAuthority(l, metas, named, next, env).value, m), kind) != HolderOf(MintAt(l, m), kind)
    ensures named == kind && metas[0].key == m
    ensures HolderOf(MintAt(l, m), kind).Some?
         && ValidateOwner(l, HolderOf(MintAt(l, m), kind).value, metas[1], metas[2..]).Pass?
    ensures HolderOf(MintAt(H.SetAuthority(l, metas, named, next, env).value, m), kind) == next
  {
    var k := metas[0].key;
    if k == m {
      MintSlotHandsOver(l, MintAt(l, m), metas[1], metas[2..], named, next, kind);
    }
  }

  lemma MintSlotHandsOver(l: Ledger, mint: Mint, authority: Meta, signers: seq<Meta>,
                          named: AuthorityType, next: Option<Pubkey>, kind: AuthorityType)
    ensures var after := SetMintAuthority(l, mint, authority, signers, named, next);
            after.Ok? && HolderOf(after.value, kind) != HolderOf(mint, kind) ==>
              && named == kind && HolderOf(after.value, kind) == next
              && HolderOf(mint, kind).Some? && ValidateOwner(l, HolderOf(mint, kind).value, authority, signers).Pass?
  {
  }

  // ------------------------------------------------------------ one-way authorities

  /** A mint that has lost its mint authority never gets one again and never grows. */
  lemma {:induction false} FixedSupplyStaysFixed(l: Ledger, steps: seq<Step>, m: Pubkey)
    requires StaysLive(l, steps, m) && MintAt(l, m).authority.None?
    ensures IsLive(Run(l, steps), m) && MintAt(Run(l, steps), m).authority.None?
    ensures MintAt(Run(l, steps), m).supply <= MintAt(l, m).supply
    decreases |steps|
  {
    if steps != [] {
      NextMint(l, steps[0], m);
      FixedSupplyStaysFixed(Next(l, steps[0]), steps[1..], m);
    }
  }

  /** Without a freeze authority no account of the mint is ever frozen or thawed again. */
  lemma {:induction false} NoFreezeAuthorityNoToggle(l: Ledger, steps: seq<Step>, m: Pubkey, k: Pubkey)
    requires StaysLive(l, steps, m) && MintAt(l, m).freezeAuthority.None?
    requires StaysOpen(l, steps, k) && AccountAt(l, k).mint == m
    ensures IsLive(Run(l, steps), m) && MintAt(Run(l, steps), m).freezeAuthority.None?
    ensures IsOpen(Run(l, steps), k) && AccountAt(Run(l, steps), k).frozen == AccountAt(l, k).frozen
    decreases |steps|
  {
    if steps != [] {
      NoToggleStep(l, steps[0], m, k);
      NoFreezeAuthorityNoToggle(Next(l, steps[0]), steps[1..], m, k);
    }
  }

  lemma NoToggleStep(l: Ledger, s: Step, m: Pubkey, k: Pubkey)
    requires IsLive(l, m) && IsLive(Next(l, s), m) && MintAt(l, m).freezeAuthority.None?
    requires IsOpen(l, k) && IsOpen(Next(l, s), k) && AccountAt(l, k).mint == m
    ensures MintAt(Next(l, s), m).freezeAuthority.None?
    ensures AccountAt(Next(l, s), k).mint == m
    ensures AccountAt(Next(l, s), k).frozen == AccountAt(l, k).frozen
  {
    NextMint(l, s, m);
    NextEvents(l, s, k);
  }
}
