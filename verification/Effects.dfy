/** What a successful instruction has done, stated cell by cell. */
module Effects {
  import opened Prelude
  import opened Ledger
  import opened Multisig
  import opened H = Handlers

  /** The same account, except that its transferring flag may have been cleared. */
  predicate UpToHook(x: Account, y: Account) {
    y == x || (x.ext.hook.Some? && y == ClearTransferring(x))
  }

  /** The cell after its account and lamports were rewritten in place. */
  predicate Rewritten(c: Cell, c': Cell, a: Account, lamports: int) {
    && c'.owner == c.owner
    && c'.lamports == lamports
    && c'.data.AccountData?
    && c'.data.len == c.data.Length()
    && UpToHook(a, c'.data.account)
  }

  /** The ledger after `n` tokens went from the account `a` to the account `d`, `s` being `a`
      with its allowance charged and `fee` what the receiver withholds. */
  predicate Moved(l: Ledger, l': Ledger, source: Pubkey, destination: Pubkey,
                  a: Account, s: Account, d: Account, n: u64, fee: u64) {
    var moved: int := if a.native.Some? then n else 0;
    && source != destination
    && IsOpen(l, source) && a == AccountAt(l, source)
    && IsOpen(l, destination) && d == AccountAt(l, destination)
    && a.mint == d.mint && n <= a.amount && Credit(d, n, fee).Ok?
    && l' == l[source := At(l', source)][destination := At(l', destination)]
    && Rewritten(At(l, source), At(l', source), s.(amount := a.amount - n), At(l, source).lamports - moved)
    && Rewritten(At(l, destination), At(l', destination), Credit(d, n, fee).value,
                 At(l, destination).lamports + moved)
  }

  /** A debit leaves everything but the allowance alone. */
  lemma SpendEffect(l: Ledger, a: Account, permanentDelegate: Option<Pubkey>, authority: Meta,
                    signers: seq<Meta>, n: u64)
    requires Spend(l, a, permanentDelegate, authority, signers, n, true).Ok?
    ensures var s := Spend(l, a, permanentDelegate, authority, signers, n, true).value;
            var arm := SpendArm(a, permanentDelegate, authority.key);
            if arm == ByDelegate then n <= a.delegatedAmount && s == UseAllowance(a, n) else s == a
  {
  }

  lemma DeliverEffect(l: Ledger, source: Pubkey, s: Account, destination: Pubkey, n: u64, q: Quote, env: Env)
    requires source != destination && IsOpen(l, source) && Ours(At(l, destination))
    requires var a := AccountAt(l, source); s.mint == a.mint && s.native == a.native && s.amount == a.amount
    requires n <= s.amount && Deliver(l, source, s, destination, n, q, env).Ok?
    ensures IsOpen(l, destination) && CheckDestination(s.mint, AccountAt(l, destination), env).Pass?
    ensures q.hook.Some? ==> env.hookOk && s.ext.hook.Some? && AccountAt(l, destination).ext.hook.Some?
    ensures Moved(l, Deliver(l, source, s, destination, n, q, env).value, source, destination,
                  AccountAt(l, source), s, AccountAt(l, destination), n, q.fee)
  {
  }

  lemma TransferEffect(l: Ledger, metas: seq<Meta>, n: u64, kind: TransferKind, env: Env)
    returns (a: Account, s: Account, d: Account, quote: Quote)
    requires H.Transfer(l, metas, n, kind, env).Ok?
    requires metas[0].key != metas[DestinationIndex(kind)].key
    ensures var at := DestinationIndex(kind) + 1;
            && UnpackAccount(At(l, metas[0].key).data) == Ok(a)
            && !a.frozen && !a.ext.nonTransferable && CheckDestination(a.mint, d, env).Pass?
            && QuoteFor(l, a, metas, n, kind, env) == Ok(quote)
            && (kind.CheckedWithFee? ==> quote.fee == kind.fee)
            && (quote.hook.Some? ==> env.hookOk && a.ext.hook.Some? && d.ext.hook.Some?)
            && !(a.Guarded() && env.inCpi && metas[at].key == a.owner)
            && Spend(l, a, quote.permanentDelegate, metas[at], metas[at + 1..], n, true) == Ok(s)
            && Moved(l, H.Transfer(l, metas, n, kind, env).value, metas[0].key, metas[DestinationIndex(kind)].key,
                     a, s, d, n, quote.fee)
  {
    var source, destination, at := metas[0].key, metas[DestinationIndex(kind)].key, DestinationIndex(kind) + 1;
    a := AccountAt(l, source);
    quote := QuoteFor(l, a, metas, n, kind, env).value;
    s := Spend(l, a, quote.permanentDelegate, metas[at], metas[at + 1..], n, true).value;
    SpendEffect(l, a, quote.permanentDelegate, metas[at], metas[at + 1..], n);
    assert H.Transfer(l, metas, n, kind, env) == Deliver(l, source, s, destination, n, quote, env);
    DeliverEffect(l, source, s, destination, n, quote, env);
    d := AccountAt(l, destination);
  }

  lemma SetAccountAuthorityEffect(l: Ledger, a: Account, authority: Meta, signers: seq<Meta>,
                                  kind: AuthorityType, next: Option<Pubkey>, env: Env)
    requires SetAccountAuthority(l, a, authority, signers, kind, next, env).Ok?
    ensures var a' := SetAccountAuthority(l, a, authority, signers, kind, next, env).value;
            if kind == AccountOwner
            then a' == a.(owner := next.UnwrapOr(0), delegate := None, delegatedAmount := 0,
                          closeAuthority := if a.native.Some? then None else a.closeAuthority)
            else a' == a.(closeAuthority := next)
  {
  }

  /** `SetAuthority` on a mint changes one authority slot that was filled. */
  lemma SetMintAuthorityEffect(l: Ledger, mint: Mint, authority: Meta, signers: seq<Meta>,
                               kind: AuthorityType, next: Option<Pubkey>)
    requires SetMintAuthority(l, mint, authority, signers, kind, next).Ok?
    ensures var mint' := SetMintAuthority(l, mint, authority, signers, kind, next).value;
            || (mint.authority.Some? && mint' == mint.(authority := next))
            || (mint.freezeAuthority.Some? && mint' == mint.(freezeAuthority := next))
            || (mint.ext.Authority(kind).Some?
                && mint' == mint.(ext := mint.ext.(authorities := mint.ext.authorities[kind := next])))
  {
  }
}
