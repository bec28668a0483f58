/** The handlers as the program runs them: accounts are written in place, sometimes before the
    last check has passed, and the runtime puts everything back when an instruction fails. */
module Processor {
  import opened Prelude
  import opened Ledger
  import opened Multisig
  import opened Machine
  import opened Invariants
  import opened H = Handlers

  /** What a handler must have done, given what the step function says: on success its ledger;
      on failure its error, with any ledger left behind. */
  predicate Does(r: Result<()>, after: Ledger, spec: Result<Ledger>) {
    match spec
    case Ok(l) => r.Ok? && after == l
    case Err(e) => r == Err(e)
  }

  /** The same, for a handler that writes nothing before its last check. */
  predicate DoesCleanly(r: Result<()>, before: Ledger, after: Ledger, spec: Result<Ledger>) {
    Does(r, after, spec) && (r.Err? ==> after == before)
  }

  /** What a transfer between two accounts leaves behind when it passes its authority and is then
      refused by the receiver: the allowance of a delegate has been charged. */
  function StoppedAtReceiver(l: Ledger, metas: seq<Meta>, n: u64, kind: TransferKind, env: Env): Option<Ledger> {
    var at := DestinationIndex(kind);
    if |metas| < at + 2 || UnpackAccount(At(l, metas[0].key).data).Err? then None
    else
      var a, authority := UnpackAccount(At(l, metas[0].key).data).value, metas[at + 1];
      var quote := QuoteFor(l, a, metas, n, kind, env);
      if a.frozen || a.amount < n || a.ext.nonTransferable || quote.Err?
         || (kind.CheckedWithFee? && quote.value.fee != kind.fee)
         || (a.Guarded() && env.inCpi && authority.key == a.owner)
         || metas[0].key == metas[at].key || !Ours(At(l, metas[0].key)) || !Ours(At(l, metas[at].key))
      then None
      else
        var s := Spend(l, a, quote.value.permanentDelegate, authority, metas[at + 2..], n, true);
        var d := UnpackAccount(At(l, metas[at].key).data);
        if s.Err? || (d.Ok? && CheckDestination(a.mint, d.value, env).Pass?) then None
        else if SpendArm(a, quote.value.permanentDelegate, authority.key) == ByDelegate
        then Some(WithAccount(l, metas[0].key, s.value))
        else Some(l)
  }

  class TokenProcessor {
    var ledger: Ledger

    constructor (l: Ledger)
      ensures ledger == l
    {
      ledger := l;
    }

    /** Rewrites one token account in place. */
    method WriteAccount(k: Pubkey, a: Account)
      modifies this
      ensures ledger == WithAccount(old(ledger), k, a)
    {
      ledger := WithAccount(ledger, k, a);
    }

    method WriteMint(k: Pubkey, m: Mint)
      modifies this
      ensures ledger == WithMint(old(ledger), k, m)
    {
      ledger := WithMint(ledger, k, m);
    }

    method WriteLamports(k: Pubkey, n: u64)
      modifies this
      ensures ledger == WithLamports(old(ledger), k, n)
    {
      ledger := WithLamports(ledger, k, n);
    }

    method ValidateOwner(expected: Pubkey, authority: Meta, signers: seq<Meta>) returns (o: Outcome)
      ensures o == H.ValidateOwner(ledger, expected, authority, signers)
    {
      if expected != authority.key {
        return Fail(OwnerMismatch);
      }
      var c := At(ledger, authority.key);
      if Ours(c) && c.data.Length() == MULTISIG_LEN {
        if c.data.Blank? {
          return Pass;
        }
        if !c.data.MultisigData? {
          return Fail(InvalidAccountData);
        }
        if c.data.n > MAX_SIGNERS {
          return Fail(Panic);
        }
        var accepted := ValidateSigners(c.data.signers[..c.data.n], c.data.m, signers);
        return Need(accepted, MissingRequiredSignature);
      }
      return Need(authority.signer, MissingRequiredSignature);
    }

    method InitializeMint(metas: seq<Meta>, decimals: u8, authority: Pubkey,
                          freezeAuthority: Option<Pubkey>, rentAccount: bool, env: Env) returns (r: Result<()>)
      modifies this
      ensures DoesCleanly(r, old(ledger), ledger,
                          H.InitializeMint(old(ledger), metas, decimals, authority, freezeAuthority, rentAccount, env))
    {
      var listed := |metas|;
      :- Need(listed >= if rentAccount then 2 else 1, NotEnoughAccountKeys);
      var k := metas[0].key;
      :- Need(At(ledger, k).lamports >= env.rent(At(ledger, k).data.Length()), NotRentExempt);
      var ext :- UnpackUninitializedMint(At(ledger, k).data);
      :- Need(env.room, InvalidAccountData);
      :- Need(ValidCombination(ext), InvalidExtensionCombination);
      if ext.defaultFrozen == Some(true) && freezeAuthority.None? {
        return Err(MintCannotFreeze);
      }
      WriteMint(k, Mint(Some(authority), 0, decimals, freezeAuthority, ext));
      return Ok(());
    }

    method InitializeAccount(metas: seq<Meta>, givenOwner: Option<Pubkey>, rentAccount: bool, env: Env)
      returns (r: Result<()>)
      modifies this
      ensures DoesCleanly(r, old(ledger), ledger, H.InitializeAccount(old(ledger), metas, givenOwner, rentAccount, env))
    {
      var listed := |metas|;
      :- Need(listed >= 2 + (if givenOwner.None? then 1 else 0) + (if rentAccount then 1 else 0),
              NotEnoughAccountKeys);
      var k, mintKey := metas[0].key, metas[1].key;
      var owner := if givenOwner.Some? then givenOwner.value else metas[2].key;
      var ext :- UnpackUninitializedAccount(At(ledger, k).data);
      :- Need(At(ledger, k).lamports >= env.rent(At(ledger, k).data.Length()), NotRentExempt);
      :- Need(UnpackMint(At(ledger, mintKey).data).Ok?, InvalidMint);
      var mint := UnpackMint(At(ledger, mintKey).data).value;
      :- CheckProgram(At(ledger, mintKey));
      :- Need(env.room, InvalidAccountData);
      var a := Account(mintKey, owner, 0, None, mint.ext.defaultFrozen == Some(true), None, 0, None,
                       RequiredExtensions(ext, mint.ext));
      if mintKey == NATIVE_MINT {
        var reserve := env.rent(At(ledger, k).data.Length());
        var backed :- CheckedSub(At(ledger, k).lamports, reserve);
        a := a.(native := Some(reserve), amount := backed);
      }
      WriteAccount(k, a);
      return Ok(());
    }

    method InitializeMultisig(metas: seq<Meta>, m: u8, rentAccount: bool, env: Env) returns (r: Result<()>)
      modifies this
      ensures DoesCleanly(r, old(ledger), ledger, H.InitializeMultisig(old(ledger), metas, m, rentAccount, env))
    {
      var skip := if rentAccount then 2 else 1;
      :- Need(|metas| >= skip, NotEnoughAccountKeys);
      var k := metas[0].key;
      :- Need(At(ledger, k).data.Length() == MULTISIG_LEN, InvalidArgument);
      :- Need(At(ledger, k).data.Blank?, AlreadyInUse);
      :- Need(At(ledger, k).lamports >= env.rent(At(ledger, k).data.Length()), NotRentExempt);
      var infos := metas[skip..];
      var n := |infos| % 256;
      :- Need(ValidSignerIndex(n), InvalidNumberOfProvidedSigners);
      :- Need(ValidSignerIndex(m), InvalidNumberOfRequiredSigners);
      if |infos| > MAX_SIGNERS {
        return Err(Panic);
      }
      var keys: seq<Pubkey> := seq(MAX_SIGNERS, _ => 0);
      for i := 0 to |infos|
        invariant |keys| == MAX_SIGNERS && ledger == old(ledger)
        invariant forall j :: 0 <= j < MAX_SIGNERS ==> keys[j] == if j < i then infos[j].key else 0
      {
        keys := keys[i := infos[i].key];
      }
      assert keys == StoredSigners(infos);
      ledger := WithData(ledger, k, MultisigData(m, n, keys));
      return Ok(());
    }

    /** The debit authority of a transfer or burn. The allowance is written at once, before the
        remaining checks of the instruction. */
    method ChargeAuthority(source: Pubkey, a: Account, permanentDelegate: Option<Pubkey>, authority: Meta,
                           signers: seq<Meta>, amount: u64, charge: bool) returns (r: Result<Account>)
      modifies this
      ensures r == Spend(old(ledger), a, permanentDelegate, authority, signers, amount, charge)
      ensures ledger == if r.Ok? && charge && SpendArm(a, permanentDelegate, authority.key) == ByDelegate
                        then WithAccount(old(ledger), source, r.value) else old(ledger)
    {
      if permanentDelegate == Some(authority.key) {
        var o := ValidateOwner(authority.key, authority, signers);
        :- o;
        return Ok(a);
      } else if a.delegate == Some(authority.key) {
        var o := ValidateOwner(authority.key, authority, signers);
        :- o;
        :- Need(a.delegatedAmount >= amount, InsufficientFunds);
        if !charge {
          return Ok(a);
        }
        var s := a.(delegatedAmount := a.delegatedAmount - amount);
        if s.delegatedAmount == 0 {
          s := s.(delegate := None);
        }
        WriteAccount(source, s);
        return Ok(s);
      } else {
        var o := ValidateOwner(a.owner, authority, signers);
        :- o;
        return Ok(a);
      }
    }

    method Transfer(metas: seq<Meta>, amount: u64, kind: TransferKind, env: Env) returns (r: Result<()>)
      modifies this
      ensures Does(r, ledger, H.Transfer(old(ledger), metas, amount, kind, env))
      ensures var left := StoppedAtReceiver(old(ledger), metas, amount, kind, env);
              left.Some? ==> r.Err? && ledger == left.value
    {
      var skip := DestinationIndex(kind);
      :- Need(|metas| >= skip + 2, NotEnoughAccountKeys);
      var source, destination, authority := metas[0].key, metas[skip].key, metas[skip + 1];
      var a :- UnpackAccount(At(ledger, source).data);
      :- Need(!a.frozen, AccountFrozen);
      :- Need(a.amount >= amount, InsufficientFunds);
      :- Need(!a.ext.nonTransferable, NonTransferable);
      var quote :- QuoteFor(ledger, a, metas, amount, kind, env);
      if kind.CheckedWithFee? && quote.fee != kind.fee {
        return Err(FeeMismatch);
      }
      if a.Guarded() && env.inCpi && authority.key == a.owner {
        return Err(CpiGuardTransferBlocked);
      }
      var self := source == destination;
      var charged := ChargeAuthority(source, a, quote.permanentDelegate, authority, metas[skip + 2..], amount, !self);
      var s :- charged;
      :- CheckProgram(At(ledger, source));
      :- CheckProgram(At(ledger, destination));
      if self {
        if a.ext.memo == Some(true) && !env.memoBefore {
          return Err(NoMemo);
        }
        return Ok(());
      }
      r := Settle(old(ledger), source, s, destination, amount, quote, env);
    }

    /** The credit: the balance is written before the withheld fee is looked at. */
    method CreditReceiver(destination: Pubkey, d: Account, amount: u64, fee: u64) returns (r: Result<Account>)
      modifies this
      ensures r == Credit(d, amount, fee)
      ensures r.Ok? ==> ledger == WithAccount(old(ledger), destination, r.value)
    {
      var net :- CheckedSub(amount, fee);
      var balance :- CheckedAdd(d.amount, net);
      var d1 := d.(amount := balance);
      WriteAccount(destination, d1);
      if fee > 0 {
        :- Need(d1.ext.withheld.Some?, InvalidState);
        var held :- CheckedAdd(d1.ext.withheld.value, fee);
        d1 := d1.(ext := d1.ext.(withheld := Some(held)));
        WriteAccount(destination, d1);
      }
      return Ok(d1);
    }

    method MoveLamports(source: Pubkey, destination: Pubkey, amount: u64) returns (r: Result<()>)
      modifies this
      ensures Does(r, ledger, H.MoveLamports(old(ledger), source, destination, amount))
    {
      var less :- CheckedSub(At(ledger, source).lamports, amount);
      WriteLamports(source, less);
      var more :- CheckedAdd(At(ledger, destination).lamports, amount);
      WriteLamports(destination, more);
      return Ok(());
    }

    /** The transfer hook call, between setting and clearing the transferring flags. */
    method CallHook(program: Pubkey, source: Pubkey, s: Account, destination: Pubkey, d: Account, env: Env)
      returns (r: Result<()>)
      requires source != destination
      modifies this
      ensures Does(r, ledger, RunHook(old(ledger), Some(program), source, s, destination, d, env))
    {
      var ready := s.ext.hook.Some? && d.ext.hook.Some?;
      :- Need(ready, ExtensionNotFound);
      WriteAccount(source, s.(ext := s.ext.(hook := Some(true))));
      WriteAccount(destination, d.(ext := d.ext.(hook := Some(true))));
      :- Need(env.hookOk, HookFailed);
      WriteAccount(source, ClearTransferring(s));
      WriteAccount(destination, ClearTransferring(d));
      return Ok(());
    }

    /** Writing data and moving lamports touch different parts of a cell. */
    lemma WritesCommute(l: Ledger, source: Pubkey, s: Account, destination: Pubkey, d: Account, amount: u64)
      requires source != destination
      ensures var before := H.MoveLamports(l, source, destination, amount);
              var after := H.MoveLamports(WithAccount(WithAccount(l, source, s), destination, d),
                                          source, destination, amount);
              if before.Ok? then after == Ok(WithAccount(WithAccount(before.value, source, s), destination, d))
              else after == before
    {
      var before := H.MoveLamports(l, source, destination, amount);
      var after := H.MoveLamports(WithAccount(WithAccount(l, source, s), destination, d), source, destination, amount);
      if before.Ok? {
        assert after.value == WithAccount(WithAccount(before.value, source, s), destination, d);
      }
    }

    /** The second half of a transfer, on a ledger where only the allowance may have been
        written since `start`. */
    method Settle(ghost start: Ledger, source: Pubkey, s: Account, destination: Pubkey,
                  amount: u64, quote: Quote, env: Env) returns (r: Result<()>)
      requires source != destination && amount <= s.amount
      requires ledger == start || ledger == WithAccount(start, source, s)
      modifies this
      ensures Does(r, ledger, Deliver(start, source, s, destination, amount, quote, env))
      ensures var d := UnpackAccount(old(At(ledger, destination)).data);
              d.Err? || CheckDestination(s.mint, d.value, env).Fail? ==> r.Err? && ledger == old(ledger)
    {
      var d :- UnpackAccount(At(ledger, destination).data);
      :- CheckDestination(s.mint, d, env);
      var s1 := s.(amount := s.amount - amount);
      WriteAccount(source, s1);
      assert ledger == WithAccount(start, source, s1);
      var credited := CreditReceiver(destination, d, amount, quote.fee);
      var d1 :- credited;
      if s.native.Some? {
        WritesCommute(start, source, s1, destination, d1, amount);
        var moved := MoveLamports(source, destination, amount);
        var _ :- moved;
      }
      if quote.hook.Some? {
        ghost var before := ledger;
        r := CallHook(quote.hook.value, source, s1, destination, d1, env);
        ghost var base := if s.native.Some? then H.MoveLamports(start, source, destination, amount).value else start;
        assert before == WithAccount(WithAccount(base, source, s1), destination, d1);
        HookOverwrites(base, quote.hook, source, s1, destination, d1, env);
        return r;
      }
      return Ok(());
    }

    lemma HookOverwrites(l: Ledger, hook: Option<Pubkey>, source: Pubkey, s: Account,
                         destination: Pubkey, d: Account, env: Env)
      requires source != destination && hook.Some?
      ensures RunHook(WithAccount(WithAccount(l, source, s), destination, d), hook, source, s, destination, d, env)
           == RunHook(l, hook, source, s, destination, d, env)
    {
      var once := WithAccount(WithAccount(l, source, s), destination, d);
      var s', d' := ClearTransferring(s), ClearTransferring(d);
      assert WithAccount(WithAccount(once, source, s'), destination, d')
          == WithAccount(WithAccount(l, source, s'), destination, d');
    }

    method Approve(metas: seq<Meta>, amount: u64, decimals: Option<u8>, env: Env) returns (r: Result<()>)
      modifies this
      ensures DoesCleanly(r, old(ledger), ledger, H.Approve(old(ledger), metas, amount, decimals, env))
    {
      var skip := if decimals.Some? then 2 else 1;
      :- Need(|metas| >= skip + 2, NotEnoughAccountKeys);
      var source := metas[0].key;
      var a :- UnpackAccount(At(ledger, source).data);
      :- Need(!a.frozen, AccountFrozen);
      if decimals.Some? {
        :- CheckDecimals(ledger, a, metas[1].key, decimals.value);
      }
      var o := ValidateOwner(a.owner, metas[skip + 1], metas[skip + 2..]);
      :- o;
      :- Need(!(a.Guarded() && env.inCpi), CpiGuardApproveBlocked);
      a := a.(delegate := Some(metas[skip].key));
      WriteAccount(source, a);
      WriteAccount(source, a.(delegatedAmount := amount));
      return Ok(());
    }

    method Revoke(metas: seq<Meta>) returns (r: Result<()>)
      modifies this
      ensures DoesCleanly(r, old(ledger), ledger, H.Revoke(old(ledger), metas))
    {
      var listed := |metas|;
      :- Need(listed >= 2, NotEnoughAccountKeys);
      var source := metas[0].key;
      var a :- UnpackAccount(At(ledger, source).data);
      :- Need(!a.frozen, AccountFrozen);
      var expected := a.owner;
      if a.delegate == Some(metas[1].key) {
        expected := metas[1].key;
      }
      var o := ValidateOwner(expected, metas[1], metas[2..]);
      :- o;
      a := a.(delegate := None);
      WriteAccount(source, a);
      WriteAccount(source, a.(delegatedAmount := 0));
      return Ok(());
    }

    method SetAuthority(metas: seq<Meta>, kind: AuthorityType, next: Option<Pubkey>, env: Env) returns (r: Result<()>)
      modifies this
      ensures DoesCleanly(r, old(ledger), ledger, H.SetAuthority(old(ledger), metas, kind, next, env))
    {
      var listed := |metas|;
      :- Need(listed >= 2, NotEnoughAccountKeys);
      var k := metas[0].key;
      if UnpackAccount(At(ledger, k).data).Ok? {
        r := SetAccountAuthority(k, metas[1], metas[2..], kind, next, env);
      } else if UnpackMint(At(ledger, k).data).Ok? {
        r := SetMintAuthority(k, metas[1], metas[2..], kind, next);
      } else {
        r := Err(InvalidAccountData);
      }
    }

    method SetAccountAuthority(k: Pubkey, authority: Meta, signers: seq<Meta>,
                               kind: AuthorityType, next: Option<Pubkey>, env: Env) returns (r: Result<()>)
      requires UnpackAccount(At(ledger, k).data).Ok?
      modifies this
      ensures var spec := H.SetAccountAuthority(old(ledger), UnpackAccount(old(At(ledger, k)).data).value,
                                                authority, signers, kind, next, env);
              DoesCleanly(r, old(ledger), ledger,
                          if spec.Ok? then Ok(WithAccount(old(ledger), k, spec.value)) else Err(spec.error))
    {
      var a := UnpackAccount(At(ledger, k).data).value;
      :- Need(!a.frozen, AccountFrozen);
      if kind == AccountOwner {
        var o := ValidateOwner(a.owner, authority, signers);
        :- o;
        :- Need(!a.ext.immutableOwner, Error.ImmutableOwner);
        if a.Guarded() {
          return Err(if env.inCpi then CpiGuardSetAuthorityBlocked else CpiGuardOwnerChangeBlocked);
        }
        :- Need(next.Some?, InvalidInstruction);
        a := a.(owner := next.value);
        WriteAccount(k, a);
        a := a.(delegate := None, delegatedAmount := 0);
        WriteAccount(k, a);
        if a.native.Some? {
          WriteAccount(k, a.(closeAuthority := None));
        }
        return Ok(());
      } else if kind == AuthorityType.CloseAccount {
        var o := ValidateOwner(a.closeAuthority.UnwrapOr(a.owner), authority, signers);
        :- o;
        if a.Guarded() && env.inCpi && next.Some? {
          return Err(CpiGuardSetAuthorityBlocked);
        }
        WriteAccount(k, a.(closeAuthority := next));
        return Ok(());
      } else {
        return Err(AuthorityTypeNotSupported);
      }
    }

    method SetMintAuthority(k: Pubkey, authority: Meta, signers: seq<Meta>,
                            kind: AuthorityType, next: Option<Pubkey>) returns (r: Result<()>)
      requires UnpackMint(At(ledger, k).data).Ok?
      modifies this
      ensures var spec := H.SetMintAuthority(old(ledger), UnpackMint(old(At(ledger, k)).data).value,
                                             authority, signers, kind, next);
              DoesCleanly(r, old(ledger), ledger,
                          if spec.Ok? then Ok(WithMint(old(ledger), k, spec.value)) else Err(spec.error))
    {
      var mint := UnpackMint(At(ledger, k).data).value;
      if kind == MintTokens {
        :- Need(mint.authority.Some?, FixedSupply);
        var o := ValidateOwner(mint.authority.value, authority, signers);
        :- o;
        WriteMint(k, mint.(authority := next));
      } else if kind == FreezeAccount {
        :- Need(mint.freezeAuthority.Some?, MintCannotFreeze);
        var o := ValidateOwner(mint.freezeAuthority.value, authority, signers);
        :- o;
        WriteMint(k, mint.(freezeAuthority := next));
      } else if kind == AccountOwner || kind == AuthorityType.CloseAccount {
        return Err(AuthorityTypeNotSupported);
      } else {
        :- Need(kind in mint.ext.authorities, ExtensionNotFound);
        var current := mint.ext.authorities[kind];
        :- Need(current.Some?, AuthorityTypeNotSupported);
        var o := ValidateOwner(current.value, authority, signers);
        :- o;
        var slot :- NonZero(next);
        WriteMint(k, mint.(ext := mint.ext.(authorities := mint.ext.authorities[kind := slot])));
      }
      return Ok(());
    }

    method MintTo(metas: seq<Meta>, amount: u64, decimals: Option<u8>) returns (r: Result<()>)
      modifies this
      ensures Does(r, ledger, H.MintTo(old(ledger), metas, amount, decimals))
    {
      var listed := |metas|;
      :- Need(listed >= 3, NotEnoughAccountKeys);
      var mintKey, destination, authority := metas[0].key, metas[1].key, metas[2];
      var d :- UnpackAccount(At(ledger, destination).data);
      :- Need(!d.frozen, AccountFrozen);
      :- Need(d.native.None?, NativeNotSupported);
      :- Need(d.mint == mintKey, MintMismatch);
      var mint :- UnpackMint(At(ledger, mintKey).data);
      if mint.ext.nonTransferable && !d.ext.immutableOwner {
        return Err(NonTransferableNeedsImmutableOwnership);
      }
      :- Need(mint.ext.paused != Some(true), MintPaused);
      :- Need(!mint.ext.confidentialMintBurn, IllegalMintBurnConversion);
      if decimals.Some? && decimals.value != mint.decimals {
        return Err(MintDecimalsMismatch);
      }
      :- Need(mint.authority.Some?, FixedSupply);
      var o := ValidateOwner(mint.authority.value, authority, metas[3..]);
      :- o;
      :- CheckProgram(At(ledger, mintKey));
      :- CheckProgram(At(ledger, destination));
      var balance :- CheckedAdd(d.amount, amount);
      WriteAccount(destination, d.(amount := balance));
      var supply :- CheckedAdd(mint.supply, amount);
      WriteMint(mintKey, mint.(supply := supply));
      return Ok(());
    }

    method Burn(metas: seq<Meta>, amount: u64, decimals: Option<u8>, env: Env) returns (r: Result<()>)
      modifies this
      ensures Does(r, ledger, H.Burn(old(ledger), metas, amount, decimals, env))
    {
      var listed := |metas|;
      :- Need(listed >= 3, NotEnoughAccountKeys);
      var source, mintKey, authority := metas[0].key, metas[1].key, metas[2];
      var a :- UnpackAccount(At(ledger, source).data);
      var mint :- UnpackMint(At(ledger, mintKey).data);
      :- Need(!a.frozen, AccountFrozen);
      :- Need(a.native.None?, NativeNotSupported);
      :- Need(a.amount >= amount, InsufficientFunds);
      :- Need(a.mint == mintKey, MintMismatch);
      if decimals.Some? && decimals.value != mint.decimals {
        return Err(MintDecimalsMismatch);
      }
      :- Need(mint.ext.paused != Some(true), MintPaused);
      if a.Guarded() && env.inCpi && authority.key == a.owner {
        return Err(CpiGuardBurnBlocked);
      }
      var s := a;
      if !a.OwnedBySystemOrIncinerator() {
        var charged := ChargeAuthority(source, a, mint.PermanentDelegate(), authority, metas[3..], amount, true);
        s :- charged;
      }
      :- CheckProgram(At(ledger, source));
      :- CheckProgram(At(ledger, mintKey));
      WriteAccount(source, s.(amount := a.amount - amount));
      assert ledger == WithAccount(old(ledger), source, s.(amount := a.amount - amount));
      var supply :- CheckedSub(mint.supply, amount);
      WriteMint(mintKey, mint.(supply := supply));
      return Ok(());
    }

    method CloseAccount(metas: seq<Meta>, env: Env) returns (r: Result<()>)
      modifies this
      ensures DoesCleanly(r, old(ledger), ledger, H.CloseAccount(old(ledger), metas, env))
    {
      var listed := |metas|;
      :- Need(listed >= 3, NotEnoughAccountKeys);
      var source, destination, authority := metas[0].key, metas[1].key, metas[2];
      :- Need(source != destination, InvalidAccountData);
      if UnpackAccount(At(ledger, source).data).Ok? {
        var a := UnpackAccount(At(ledger, source).data).value;
        if a.native.None? && a.amount != 0 {
          return Err(NonNativeHasBalance);
        }
        if a.OwnedBySystemOrIncinerator() {
          :- Need(destination == INCINERATOR, InvalidAccountData);
        } else {
          if a.Guarded() && env.inCpi && destination != a.owner {
            return Err(CpiGuardCloseAccountBlocked);
          }
          var o := ValidateOwner(a.closeAuthority.UnwrapOr(a.owner), authority, metas[3..]);
          :- o;
        }
        if a.ext.confidential.Some? && !a.ext.confidential.value.closable {
          return Err(ConfidentialTransferAccountHasBalance);
        }
        :- Need(a.ext.confidentialFeeClosable != Some(false), ConfidentialTransferFeeAccountHasWithheldFee);
        if a.ext.withheld.Some? {
          :- Need(a.ext.withheld.value == 0, AccountHasWithheldTransferFees);
        }
      } else if UnpackMint(At(ledger, source).data).Ok? {
        var mint := UnpackMint(At(ledger, source).data).value;
        :- Need(CloseMint in mint.ext.authorities, ExtensionNotFound);
        :- Need(mint.ext.authorities[CloseMint].Some?, AuthorityTypeNotSupported);
        var o := ValidateOwner(mint.ext.authorities[CloseMint].value, authority, metas[3..]);
        :- o;
        :- Need(mint.supply == 0, MintHasSupply);
      } else {
        return Err(UninitializedAccount);
      }
      var sum :- CheckedAdd(At(ledger, destination).lamports, At(ledger, source).lamports);
      WriteLamports(destination, sum);
      WriteLamports(source, 0);
      DeleteAccount(source);
      return Ok(());
    }

    /** Hands an emptied account back to the system program. */
    method DeleteAccount(k: Pubkey)
      requires At(ledger, k).lamports == 0
      modifies this
      ensures ledger == old(ledger)[k := EMPTY]
    {
      ledger := ledger[k := Cell(0, SYSTEM_PROGRAM, Blank(0))];
    }

    method ToggleFreeze(metas: seq<Meta>, freeze: bool) returns (r: Result<()>)
      modifies this
      ensures DoesCleanly(r, old(ledger), ledger, H.ToggleFreeze(old(ledger), metas, freeze))
    {
      var listed := |metas|;
      :- Need(listed >= 3, NotEnoughAccountKeys);
      var source, mintKey := metas[0].key, metas[1].key;
      var a :- UnpackAccount(At(ledger, source).data);
      if (freeze && a.frozen) || (!freeze && !a.frozen) {
        return Err(InvalidState);
      }
      :- Need(a.native.None?, NativeNotSupported);
      :- Need(a.mint == mintKey, MintMismatch);
      var mint :- UnpackMint(At(ledger, mintKey).data);
      :- Need(mint.freezeAuthority.Some?, MintCannotFreeze);
      var o := ValidateOwner(mint.freezeAuthority.value, metas[2], metas[3..]);
      :- o;
      WriteAccount(source, a.(frozen := freeze));
      return Ok(());
    }

    method SyncNative(metas: seq<Meta>) returns (r: Result<()>)
      modifies this
      ensures DoesCleanly(r, old(ledger), ledger, H.SyncNative(old(ledger), metas))
    {
      var listed := |metas|;
      :- Need(listed >= 1, NotEnoughAccountKeys);
      var k := metas[0].key;
      :- CheckProgram(At(ledger, k));
      var a :- UnpackAccount(At(ledger, k).data);
      :- Need(a.native.Some?, NonNativeNotSupported);
      var backed :- CheckedSub(At(ledger, k).lamports, a.native.value);
      :- Need(backed >= a.amount, InvalidState);
      WriteAccount(k, a.(amount := backed));
      return Ok(());
    }

    method WithdrawExcess(metas: seq<Meta>, env: Env) returns (r: Result<()>)
      modifies this
      ensures Does(r, ledger, H.WithdrawExcess(old(ledger), metas, env))
    {
      var listed := |metas|;
      :- Need(listed >= 3, NotEnoughAccountKeys);
      var source, destination, authority := metas[0].key, metas[1].key, metas[2];
      var o: Outcome;
      if UnpackAccount(At(ledger, source).data).Ok? {
        var a := UnpackAccount(At(ledger, source).data).value;
        :- Need(a.native.None?, NativeNotSupported);
        o := ValidateOwner(a.owner, authority, metas[3..]);
      } else if UnpackMint(At(ledger, source).data).Ok? {
        var mint := UnpackMint(At(ledger, source).data).value;
        if mint.authority.Some? {
          o := ValidateOwner(mint.authority.value, authority, metas[3..]);
        } else if source == authority.key {
          o := Need(authority.signer, MissingRequiredSignature);
        } else {
          o := Fail(AuthorityTypeNotSupported);
        }
      } else if At(ledger, source).data.Length() == MULTISIG_LEN {
        o := ValidateOwner(source, authority, metas[3..]);
      } else {
        o := Fail(InvalidState);
      }
      :- o;
      var reserve := env.rent(At(ledger, source).data.Length());
      :- Need(At(ledger, source).lamports >= reserve, NotRentExempt);
      r := MoveLamports(source, destination, At(ledger, source).lamports - reserve);
    }

    /** The dispatch of `process`. */
    method Dispatch(ix: Instruction, metas: seq<Meta>, env: Env) returns (r: Result<()>)
      modifies this
      ensures Does(r, ledger, Handle(old(ledger), ix, metas, env))
    {
      match ix {
        case InitializeMint(d, a, f, rent) => r := InitializeMint(metas, d, a, f, rent, env);
        case InitializeAccount(o, rent) => r := InitializeAccount(metas, o, rent, env);
        case InitializeMultisig(m, rent) => r := InitializeMultisig(metas, m, rent, env);
        case Transfer(n, kind) => r := Transfer(metas, n, kind, env);
        case Approve(n, d) => r := Approve(metas, n, d, env);
        case Revoke => r := Revoke(metas);
        case SetAuthority(kind, next) => r := SetAuthority(metas, kind, next, env);
        case MintTo(n, d) => r := MintTo(metas, n, d);
        case Burn(n, d) => r := Burn(metas, n, d, env);
        case CloseAccount => r := CloseAccount(metas, env);
        case ToggleFreeze(f) => r := ToggleFreeze(metas, f);
        case SyncNative => r := SyncNative(metas);
        case WithdrawExcess => r := WithdrawExcess(metas, env);
        case _ => r := ProcessExtension(ix, metas, env);
      }
    }

    /** One instruction as the runtime executes it: dispatch, the ownership rule, and rollback. */
    method Process(ix: Instruction, metas: seq<Meta>, env: Env) returns (r: Result<()>)
      modifies this
      ensures match Execute(old(ledger), ix, metas, env)
              case Ok(l) => r.Ok? && ledger == l
              case Err(e) => r == Err(e) && ledger == old(ledger)
      ensures Inv(old(ledger)) ==> Keeps(old(ledger), ledger)
    {
      var saved := ledger;
      r := Dispatch(ix, metas, env);
      if r.Ok? && !RuntimeAccepts(saved, ledger) {
        r := Err(RuntimeRefused);
      }
      if r.Err? {
        ledger := saved;
      } else if Inv(old(ledger)) {
        ExecuteInv(saved, ix, metas, env);
      }
    }

    /** The extension processors are modelled on values. */
    method ProcessExtension(ix: Instruction, metas: seq<Meta>, env: Env) returns (r: Result<()>)
      modifies this
      ensures Does(r, ledger, Handle(old(ledger), ix, metas, env))
    {
      match Handle(ledger, ix, metas, env) {
        case Ok(l) =>
          ledger := l;
          r := Ok(());
        case Err(e) => r := Err(e);
      }
    }
  }

  /** A delegate with an allowance of ten for account 1; account 2, of the same mint, is frozen. */
  function FrozenReceiverLedger(): Ledger {
    var source := Account(5, 4, 10, Some(6), false, None, 10, None, PLAIN_ACCOUNT);
    map[1 := Cell(0, TOKEN_PROGRAM, AccountData(ACCOUNT_LEN, source)),
        2 := Cell(0, TOKEN_PROGRAM, AccountData(ACCOUNT_LEN, source.(frozen := true)))]
  }

  /** The delegate sends three: the handler alone fails with the allowance down to seven, and under
      rollback it is ten again. */
  method ChargedThoughRefused(env: Env) returns (alone: TokenProcessor, whole: TokenProcessor)
    ensures fresh(alone) && fresh(whole)
    ensures H.Transfer(FrozenReceiverLedger(), [Meta(1, false), Meta(2, false), Meta(6, true)], 3, Unchecked, env)
         == Err(AccountFrozen)
    ensures IsOpen(alone.ledger, 1) && AccountAt(alone.ledger, 1).delegatedAmount == 7
    ensures whole.ledger == FrozenReceiverLedger()
  {
    var l := FrozenReceiverLedger();
    var metas := [Meta(1, false), Meta(2, false), Meta(6, true)];
    alone := new TokenProcessor(l);
    var r := alone.Transfer(metas, 3, Unchecked, env);
    assert StoppedAtReceiver(l, metas, 3, Unchecked, env).Some?;
    whole := new TokenProcessor(l);
    r := whole.Process(Instruction.Transfer(3, Unchecked), metas, env);
  }
}
