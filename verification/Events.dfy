/** Each token account and each mint seen on its own: the event an instruction is for it, what
    that event does, and what allowed it. The long guarded handlers are read once, here; the
    properties of whole runs rest on the events. */
module Events {
  import opened Prelude
  import opened Ledger
  import opened Multisig
  import opened Machine
  import opened Effects
  import opened H = Handlers
  import opened X = Extensions

  datatype Event =
    | Quiet
    | Debited(amount: u64, arm: Arm)
    | Credited(credit: int)
    | Approved(delegate: Pubkey, allowance: u64)
    | Revoked
    | OwnerSet(owner: Pubkey)
    | CloserSet(closer: Option<Pubkey>)
    | FreezeSet(frozen: bool)
    | Synced(gain: int)
    | Closed

  /** The listed account at position `i`, or one nobody can be. */
  function MetaAt(metas: seq<Meta>, i: nat): Meta {
    if i < |metas| then metas[i] else Meta(SYSTEM_PROGRAM, false)
  }

  /** Where an instruction lists the authority it acts for; the signers follow. */
  function AuthorityIndex(ix: Instruction): nat {
    match ix
    case Transfer(_, kind) => DestinationIndex(kind) + 1
    case Approve(_, d) => if d.Some? then 3 else 2
    case Revoke => 1
    case SetAuthority(_, _) => 1
    case TogglePause(_) => 1
    case SetTransferFee(_, _) => 1
    case ToggleCpiGuard(_) => 1
    case _ => 2
  }

  function Authority(ix: Instruction, metas: seq<Meta>): Meta {
    MetaAt(metas, AuthorityIndex(ix))
  }

  function Signers(ix: Instruction, metas: seq<Meta>): seq<Meta> {
    if |metas| > AuthorityIndex(ix) then metas[AuthorityIndex(ix) + 1..] else []
  }

  /** `validate_owner` passes for this key with the authority and signers of the instruction. */
  predicate Authorized(l: Ledger, ix: Instruction, metas: seq<Meta>, key: Pubkey) {
    ValidateOwner(l, key, Authority(ix, metas), Signers(ix, metas)).Pass?
  }

  /** The permanent delegate that a checked transfer or a burn finds in the mint of `a`. */
  function PermanentDelegateFor(l: Ledger, a: Account, ix: Instruction): Option<Pubkey> {
    if (ix.Burn? || (ix.Transfer? && !ix.transferKind.Unchecked?)) && UnpackMint(At(l, a.mint).data).Ok?
    then UnpackMint(At(l, a.mint).data).value.PermanentDelegate()
    else None
  }

  function DebitArm(l: Ledger, a: Account, ix: Instruction, metas: seq<Meta>): Arm {
    if ix.Burn? && a.OwnedBySystemOrIncinerator() then Unowned
    else SpendArm(a, PermanentDelegateFor(l, a, ix), Authority(ix, metas).key)
  }

  /** The event that a successful instruction is for the open account `k`. */
  function EventOf(l: Ledger, ix: Instruction, metas: seq<Meta>, l': Ledger, k: Pubkey): Event
    requires IsOpen(l, k)
  {
    var a := AccountAt(l, k);
    var gain := if IsOpen(l', k) then AccountAt(l', k).amount - a.amount else 0;
    var first := MetaAt(metas, 0).key == k;
    var second := MetaAt(metas, 1).key == k;
    match ix
    case Transfer(n, kind) =>
      if MetaAt(metas, 0).key == MetaAt(metas, DestinationIndex(kind)).key then Quiet
      else if first then Debited(n, DebitArm(l, a, ix, metas))
      else if MetaAt(metas, DestinationIndex(kind)).key == k then Credited(gain)
      else Quiet
    case Burn(n, _) => if first then Debited(n, DebitArm(l, a, ix, metas)) else Quiet
    case MintTo(_, _) => if second then Credited(gain) else Quiet
    case WithdrawWithheldFromMint => if second then Credited(gain) else Quiet
    case WithdrawWithheldFromAccounts(_) => if second then Credited(gain) else Quiet
    case Approve(n, d) => if first then Approved(MetaAt(metas, AuthorityIndex(ix) - 1).key, n) else Quiet
    case Revoke => if first then Event.Revoked else Quiet
    case SetAuthority(kind, next) =>
      if !first then Quiet
      else if kind == AccountOwner then OwnerSet(next.UnwrapOr(SYSTEM_PROGRAM))
      else CloserSet(next)
    case CloseAccount => if first then Closed else Quiet
    case ToggleFreeze(f) => if first then FreezeSet(f) else Quiet
    case SyncNative => if first then Synced(gain) else Quiet
    case _ => Quiet
  }

  /** Everything but the extensions. */
  function Base(a: Account): Account {
    a.(ext := PLAIN_ACCOUNT)
  }

  /** What an event does to the account. */
  predicate Follows(a: Account, e: Event, a': Account) {
    match e
    case Quiet => Base(a') == Base(a)
    case Debited(n, arm) =>
      && n <= a.amount
      && (arm == ByDelegate ==> n <= a.delegatedAmount)
      && Base(a') == Base((if arm == ByDelegate then UseAllowance(a, n) else a).(amount := a.amount - n))
    case Credited(g) => g >= 0 && a'.amount == a.amount + g && Base(a') == Base(a.(amount := a'.amount))
    case Approved(d, n) => Base(a') == Base(a.(delegate := Some(d), delegatedAmount := n))
    case Revoked => Base(a') == Base(a.(delegate := None, delegatedAmount := 0))
    case OwnerSet(o) =>
      Base(a') == Base(a.(owner := o, delegate := None, delegatedAmount := 0,
                          closeAuthority := if a.native.Some? then None else a.closeAuthority))
    case CloserSet(c) => Base(a') == Base(a.(closeAuthority := c))
    case FreezeSet(f) => Base(a') == Base(a.(frozen := f))
    case Synced(g) => g >= 0 && a'.amount == a.amount + g && Base(a') == Base(a.(amount := a'.amount))
    case Closed => true
  }

  /** Extensions an account has, it keeps; only the guard can be added, and not during a CPI. */
  predicate ExtensionsKept(a: AccountExt, a': AccountExt, env: Env) {
    && a'.immutableOwner == a.immutableOwner
    && a'.nonTransferable == a.nonTransferable
    && a'.pausable == a.pausable
    && a'.withheld.Some? == a.withheld.Some?
    && a'.hook.Some? == a.hook.Some?
    && (a.cpiGuard.Some? ==> a'.cpiGuard.Some?)
    && (env.inCpi ==> a'.cpiGuard == a.cpiGuard)
  }

  /** A CPI acting in the name of the owner of a guarded account. */
  predicate GuardStops(a: Account, env: Env) {
    a.Guarded() && env.inCpi
  }

  /** What must have been the case for the event to happen. */
  predicate Permitted(l: Ledger, ix: Instruction, metas: seq<Meta>, env: Env, k: Pubkey, e: Event)
    requires IsOpen(l, k)
  {
    var a := AccountAt(l, k);
    match e
    case Quiet => true
    case Debited(n, arm) =>
      && !a.frozen
      && (a.ext.nonTransferable ==> ix.Burn?)
      && (GuardStops(a, env) ==> Authority(ix, metas).key != a.owner)
      && (match arm
          case ByPermanentDelegate =>
            PermanentDelegateFor(l, a, ix) == Some(Authority(ix, metas).key)
            && Authorized(l, ix, metas, Authority(ix, metas).key)
          case ByDelegate =>
            a.delegate == Some(Authority(ix, metas).key) && Authorized(l, ix, metas, Authority(ix, metas).key)
          case ByOwner => Authorized(l, ix, metas, a.owner)
          case Unowned => ix.Burn? && a.OwnedBySystemOrIncinerator())
    case Credited(_) => !a.frozen
    case Approved(_, _) => !a.frozen && Authorized(l, ix, metas, a.owner) && !GuardStops(a, env)
    case Revoked =>
      && !a.frozen
      && (Authorized(l, ix, metas, a.owner)
          || (a.delegate.Some? && Authorized(l, ix, metas, a.delegate.value)))
    case OwnerSet(_) =>
      !a.frozen && Authorized(l, ix, metas, a.owner) && !a.ext.immutableOwner && !a.Guarded()
    case CloserSet(c) =>
      !a.frozen && Authorized(l, ix, metas, a.Closer()) && (GuardStops(a, env) ==> c.None?)
    case FreezeSet(f) =>
      && a.frozen != f && a.native.None?
      && UnpackMint(At(l, a.mint).data).Ok?
      && UnpackMint(At(l, a.mint).data).value.freezeAuthority.Some?
      && Authorized(l, ix, metas, UnpackMint(At(l, a.mint).data).value.freezeAuthority.value)
    case Synced(_) => a.native.Some?
    case Closed =>
      && (a.native.None? ==> a.amount == 0)
      && a.Withheld() == 0
      && (if a.OwnedBySystemOrIncinerator() then MetaAt(metas, 1).key == INCINERATOR
          else Authorized(l, ix, metas, a.Closer()))
  }

  /** An open account does exactly what its event says, and the event was permitted. */
  predicate AccountFollows(l: Ledger, ix: Instruction, metas: seq<Meta>, env: Env, l': Ledger, k: Pubkey) {
    IsOpen(l, k) ==>
      var e := EventOf(l, ix, metas, l', k);
      && Permitted(l, ix, metas, env, k, e)
      && IsOpen(l', k) == !e.Closed?
      && (IsOpen(l', k) ==>
            && Follows(AccountAt(l, k), e, AccountAt(l', k))
            && ExtensionsKept(AccountAt(l, k).ext, AccountAt(l', k).ext, env))
  }

  /** The account extensions that a mint with these extensions imposes are all there. */
  predicate InheritsFrom(a: AccountExt, m: MintExt) {
    && (m.fee.Some? ==> a.withheld.Some?)
    && (m.hook.Some? ==> a.hook.Some?)
    && (m.paused.Some? ==> a.pausable)
    && (m.nonTransferable ==> a.nonTransferable && a.immutableOwner)
  }

  /** Accounts come into being only by initialization, against a live mint they inherit from. */
  predicate BirthFollows(l: Ledger, ix: Instruction, metas: seq<Meta>, l': Ledger, k: Pubkey) {
    !IsOpen(l, k) && IsOpen(l', k) ==>
      var a := AccountAt(l', k);
      && ix.InitializeAccount? && MetaAt(metas, 0).key == k
      && IsLive(l, a.mint) && InheritsFrom(a.ext, MintAt(l, a.mint).ext)
      && a.delegate.None? && a.delegatedAmount == 0 && a.closeAuthority.None?
      && (a.mint != NATIVE_MINT ==> a.amount == 0)
  }

  /** What any instruction may do to a live mint. */
  predicate MintKept(ix: Instruction, m: Mint, m': Mint) {
    && m'.decimals == m.decimals
    && (!ix.SetAuthority? ==>
          && m'.authority == m.authority && m'.freezeAuthority == m.freezeAuthority
          && m'.ext.authorities == m.ext.authorities)
    && (m.authority.None? ==> m'.authority.None?)
    && (m'.supply > m.supply ==> ix.MintTo? && m.authority.Some?)
    && (m'.supply < m.supply ==> ix.Burn?)
    && (m.freezeAuthority.None? ==> m'.freezeAuthority.None?)
    && m'.ext.fee.Some? == m.ext.fee.Some?
    && m'.ext.hook.Some? == m.ext.hook.Some?
    && m'.ext.paused.Some? == m.ext.paused.Some?
    && m'.ext.nonTransferable == m.ext.nonTransferable
    && m'.ext.authorities.Keys == m.ext.authorities.Keys
    && (forall kind :: kind in m.ext.authorities && m.ext.authorities[kind].None? ==> m'.ext.authorities[kind].None?)
    && (m.ext.paused == Some(true) ==> m'.supply == m.supply && (m'.ext.paused == m.ext.paused || ix.TogglePause?))
  }

  predicate MintFollows(l: Ledger, ix: Instruction, metas: seq<Meta>, l': Ledger, m: Pubkey) {
    && (IsLive(l, m) ==>
          if IsLive(l', m) then MintKept(ix, MintAt(l, m), MintAt(l', m))
          else ix.CloseAccount? && MetaAt(metas, 0).key == m && MintAt(l, m).supply == 0)
    && (!IsLive(l, m) && IsLive(l', m) ==>
          ix.InitializeMint? && MetaAt(metas, 0).key == m && MintAt(l', m).supply == 0)
  }

  /** All of it, for one key. */
  predicate KeyFollows(l: Ledger, ix: Instruction, metas: seq<Meta>, env: Env, l': Ledger, k: Pubkey) {
    && AccountFollows(l, ix, metas, env, l', k)
    && BirthFollows(l, ix, metas, l', k)
    && MintFollows(l, ix, metas, l', k)
  }

  // ------------------------------------------------------------ one lemma per instruction

  lemma InitializeMintEvents(l: Ledger, metas: seq<Meta>, env: Env, d: u8, a: Pubkey, f: Option<Pubkey>, r: bool,
                             k: Pubkey)
    requires H.InitializeMint(l, metas, d, a, f, r, env).Ok?
    ensures KeyFollows(l, Instruction.InitializeMint(d, a, f, r), metas, env,
                       H.InitializeMint(l, metas, d, a, f, r, env).value, k)
  {
  }

  lemma InitializeAccountEvents(l: Ledger, metas: seq<Meta>, env: Env, o: Option<Pubkey>, r: bool, k: Pubkey)
    requires H.InitializeAccount(l, metas, o, r, env).Ok?
    ensures KeyFollows(l, Instruction.InitializeAccount(o, r), metas, env,
                       H.InitializeAccount(l, metas, o, r, env).value, k)
  {
  }

  lemma ApproveEvents(l: Ledger, metas: seq<Meta>, env: Env, n: u64, d: Option<u8>, k: Pubkey)
    requires H.Approve(l, metas, n, d, env).Ok?
    ensures KeyFollows(l, Instruction.Approve(n, d), metas, env, H.Approve(l, metas, n, d, env).value, k)
  {
  }

  lemma RevokeEvents(l: Ledger, metas: seq<Meta>, env: Env, k: Pubkey)
    requires H.Revoke(l, metas).Ok?
    ensures KeyFollows(l, Instruction.Revoke, metas, env, H.Revoke(l, metas).value, k)
  {
  }

  lemma SetAuthorityEvents(l: Ledger, metas: seq<Meta>, env: Env, kind: AuthorityType, next: Option<Pubkey>,
                           k: Pubkey)
    requires H.SetAuthority(l, metas, kind, next, env).Ok?
    ensures KeyFollows(l, Instruction.SetAuthority(kind, next), metas, env,
                       H.SetAuthority(l, metas, kind, next, env).value, k)
  {
    if k != metas[0].key {
      var l' := H.SetAuthority(l, metas, kind, next, env).value;
      Untouched(l, Instruction.SetAuthority(kind, next), metas, env, l', k);
    } else if UnpackAccount(At(l, k).data).Ok? {
      SetAccountAuthorityEvents(l, metas, env, kind, next);
    } else {
      SetMintAuthorityEvents(l, metas, env, kind, next);
    }
  }

  lemma SetAccountAuthorityEvents(l: Ledger, metas: seq<Meta>, env: Env, kind: AuthorityType, next: Option<Pubkey>)
    requires H.SetAuthority(l, metas, kind, next, env).Ok? && UnpackAccount(At(l, metas[0].key).data).Ok?
    ensures KeyFollows(l, Instruction.SetAuthority(kind, next), metas, env,
                       H.SetAuthority(l, metas, kind, next, env).value, metas[0].key)
  {
    var a := UnpackAccount(At(l, metas[0].key).data).value;
    SetAccountAuthorityEffect(l, a, metas[1], metas[2..], kind, next, env);
  }

  lemma SetMintAuthorityEvents(l: Ledger, metas: seq<Meta>, env: Env, kind: AuthorityType, next: Option<Pubkey>)
    requires H.SetAuthority(l, metas, kind, next, env).Ok? && UnpackAccount(At(l, metas[0].key).data).Err?
    ensures KeyFollows(l, Instruction.SetAuthority(kind, next), metas, env,
                       H.SetAuthority(l, metas, kind, next, env).value, metas[0].key)
  {
    var mint := UnpackMint(At(l, metas[0].key).data).value;
    var mint' := SetMintAuthority(l, mint, metas[1], metas[2..], kind, next).value;
    SetMintAuthorityEffect(l, mint, metas[1], metas[2..], kind, next);
    SlotsKept(kind, next, mint, mint');
    assert H.SetAuthority(l, metas, kind, next, env).value == WithMint(l, metas[0].key, mint');
    hide H.SetAuthority, SetMintAuthority, MintKept;
    assert At(WithMint(l, metas[0].key, mint'), metas[0].key).data.mint == mint';
  }

  lemma SlotsKept(kind: AuthorityType, next: Option<Pubkey>, mint: Mint, mint': Mint)
    requires || (mint.authority.Some? && mint' == mint.(authority := next))
             || (mint.freezeAuthority.Some? && mint' == mint.(freezeAuthority := next))
             || (mint.ext.Authority(kind).Some?
                 && mint' == mint.(ext := mint.ext.(authorities := mint.ext.authorities[kind := next])))
    ensures MintKept(Instruction.SetAuthority(kind, next), mint, mint')
  {
  }

  /** A key whose cell did not change, and for which the instruction is no event. */
  lemma Untouched(l: Ledger, ix: Instruction, metas: seq<Meta>, env: Env, l': Ledger, k: Pubkey)
    requires At(l', k).owner == At(l, k).owner && At(l', k).data == At(l, k).data
    requires IsOpen(l, k) ==> EventOf(l, ix, metas, l', k) == Quiet
    ensures KeyFollows(l, ix, metas, env, l', k)
  {
  }

  /** The two accounts after a transfer, as their events say. */
  lemma MovedSourceFollows(l: Ledger, l': Ledger, source: Pubkey, destination: Pubkey,
                           a: Account, s: Account, d: Account, n: u64, fee: u64, arm: Arm, env: Env)
    requires Moved(l, l', source, destination, a, s, d, n, fee)
    requires if arm == ByDelegate then n <= a.delegatedAmount && s == UseAllowance(a, n) else s == a
    ensures IsOpen(l', source) && Follows(a, Debited(n, arm), AccountAt(l', source))
    ensures ExtensionsKept(a.ext, AccountAt(l', source).ext, env)
  {
    assert UpToHook(s.(amount := a.amount - n), At(l', source).data.account);
  }

  lemma MovedDestinationFollows(l: Ledger, l': Ledger, source: Pubkey, destination: Pubkey,
                                a: Account, s: Account, d: Account, n: u64, fee: u64, env: Env)
    requires Moved(l, l', source, destination, a, s, d, n, fee)
    ensures IsOpen(l', destination)
    ensures Follows(d, Credited(AccountAt(l', destination).amount - d.amount), AccountAt(l', destination))
    ensures ExtensionsKept(d.ext, AccountAt(l', destination).ext, env)
  {
    assert UpToHook(Credit(d, n, fee).value, At(l', destination).data.account);
  }

  /** A debit that passed `Spend` rests on the authority its arm names. */
  lemma SpendPermits(l: Ledger, a: Account, permanentDelegate: Option<Pubkey>, authority: Meta,
                     signers: seq<Meta>, n: u64)
    requires Spend(l, a, permanentDelegate, authority, signers, n, true).Ok?
    ensures match SpendArm(a, permanentDelegate, authority.key)
            case ByPermanentDelegate =>
              permanentDelegate == Some(authority.key) && ValidateOwner(l, authority.key, authority, signers).Pass?
            case ByDelegate =>
              a.delegate == Some(authority.key) && ValidateOwner(l, authority.key, authority, signers).Pass?
            case _ => ValidateOwner(l, a.owner, authority, signers).Pass?
  {
  }

  lemma QuoteDelegate(l: Ledger, a: Account, metas: seq<Meta>, n: u64, kind: TransferKind, env: Env)
    requires !kind.Unchecked? ==> |metas| >= 2
    requires QuoteFor(l, a, metas, n, kind, env).Ok?
    ensures QuoteFor(l, a, metas, n, kind, env).value.permanentDelegate
         == PermanentDelegateFor(l, a, Instruction.Transfer(n, kind))
  {
  }

  lemma TransferPairEvents(l: Ledger, metas: seq<Meta>, env: Env, n: u64, kind: TransferKind)
    requires H.Transfer(l, metas, n, kind, env).Ok?
    requires metas[0].key != metas[DestinationIndex(kind)].key
    ensures var ix, l' := Instruction.Transfer(n, kind), H.Transfer(l, metas, n, kind, env).value;
            && IsOpen(l, metas[0].key) && IsOpen(l', metas[0].key)
            && IsOpen(l, metas[DestinationIndex(kind)].key) && IsOpen(l', metas[DestinationIndex(kind)].key)
            && AccountFollows(l, ix, metas, env, l', metas[0].key)
            && AccountFollows(l, ix, metas, env, l', metas[DestinationIndex(kind)].key)
  {
    var a, s, d, quote := TransferEffect(l, metas, n, kind, env);
    var at := DestinationIndex(kind) + 1;
    var ix, l' := Instruction.Transfer(n, kind), H.Transfer(l, metas, n, kind, env).value;
    assert Authority(ix, metas) == metas[at] && Signers(ix, metas) == metas[at + 1..];
    QuoteDelegate(l, a, metas, n, kind, env);
    SpendEffect(l, a, quote.permanentDelegate, metas[at], metas[at + 1..], n);
    SpendPermits(l, a, quote.permanentDelegate, metas[at], metas[at + 1..], n);
    var arm := SpendArm(a, quote.permanentDelegate, metas[at].key);
    MovedSourceFollows(l, l', metas[0].key, metas[at - 1].key, a, s, d, n, quote.fee, arm, env);
    MovedDestinationFollows(l, l', metas[0].key, metas[at - 1].key, a, s, d, n, quote.fee, env);
    TransferPairPermitted(l, metas, env, n, kind, a, d, l');
  }

  lemma TransferPairPermitted(l: Ledger, metas: seq<Meta>, env: Env, n: u64, kind: TransferKind,
                              a: Account, d: Account, l': Ledger)
    requires |metas| > DestinationIndex(kind) + 1 && metas[0].key != metas[DestinationIndex(kind)].key
    requires IsOpen(l, metas[0].key) && a == AccountAt(l, metas[0].key)
    requires IsOpen(l, metas[DestinationIndex(kind)].key) && d == AccountAt(l, metas[DestinationIndex(kind)].key)
    requires var ix, authority := Instruction.Transfer(n, kind), metas[DestinationIndex(kind) + 1];
             var signers := metas[DestinationIndex(kind) + 2..];
             && !a.frozen && !d.frozen && !a.ext.nonTransferable
             && !(a.Guarded() && env.inCpi && authority.key == a.owner)
             && match DebitArm(l, a, ix, metas)
                case ByPermanentDelegate =>
                  PermanentDelegateFor(l, a, ix) == Some(authority.key)
                  && ValidateOwner(l, authority.key, authority, signers).Pass?
                case ByDelegate =>
                  a.delegate == Some(authority.key) && ValidateOwner(l, authority.key, authority, signers).Pass?
                case ByOwner => ValidateOwner(l, a.owner, authority, signers).Pass?
                case Unowned => false
    ensures var ix := Instruction.Transfer(n, kind);
            var source, destination := metas[0].key, metas[DestinationIndex(kind)].key;
            && EventOf(l, ix, metas, l', source) == Debited(n, DebitArm(l, a, ix, metas))
            && Permitted(l, ix, metas, env, source, EventOf(l, ix, metas, l', source))
            && EventOf(l, ix, metas, l', destination).Credited?
            && Permitted(l, ix, metas, env, destination, EventOf(l, ix, metas, l', destination))
  {
  }

  lemma TransferEvents(l: Ledger, metas: seq<Meta>, env: Env, n: u64, kind: TransferKind, k: Pubkey)
    requires H.Transfer(l, metas, n, kind, env).Ok?
    ensures KeyFollows(l, Instruction.Transfer(n, kind), metas, env, H.Transfer(l, metas, n, kind, env).value, k)
  {
    var ix, l' := Instruction.Transfer(n, kind), H.Transfer(l, metas, n, kind, env).value;
    var source, destination := metas[0].key, metas[DestinationIndex(kind)].key;
    if source == destination {
      assert l' == l;
      Untouched(l, ix, metas, env, l', k);
    } else if k == source || k == destination {
      TransferPairEvents(l, metas, env, n, kind);
    } else {
      var a, s, d, quote := TransferEffect(l, metas, n, kind, env);
      Untouched(l, ix, metas, env, l', k);
    }
  }

  lemma BurnEvents(l: Ledger, metas: seq<Meta>, env: Env, n: u64, d: Option<u8>, k: Pubkey)
    requires H.Burn(l, metas, n, d, env).Ok?
    ensures KeyFollows(l, Instruction.Burn(n, d), metas, env, H.Burn(l, metas, n, d, env).value, k)
  {
    if k != metas[0].key && k != metas[1].key {
      hide ValidateOwner, Spend;
      Untouched(l, Instruction.Burn(n, d), metas, env, H.Burn(l, metas, n, d, env).value, k);
    } else if k == metas[1].key {
      hide ValidateOwner, Spend, Permitted;
    }
  }

  lemma MintToEvents(l: Ledger, metas: seq<Meta>, env: Env, n: u64, d: Option<u8>, k: Pubkey)
    requires H.MintTo(l, metas, n, d).Ok?
    ensures KeyFollows(l, Instruction.MintTo(n, d), metas, env, H.MintTo(l, metas, n, d).value, k)
  {
  }

  lemma CloseAccountEvents(l: Ledger, metas: seq<Meta>, env: Env, k: Pubkey)
    requires H.CloseAccount(l, metas, env).Ok?
    ensures KeyFollows(l, Instruction.CloseAccount, metas, env, H.CloseAccount(l, metas, env).value, k)
  {
  }

  lemma ToggleFreezeEvents(l: Ledger, metas: seq<Meta>, env: Env, f: bool, k: Pubkey)
    requires H.ToggleFreeze(l, metas, f).Ok?
    ensures KeyFollows(l, Instruction.ToggleFreeze(f), metas, env, H.ToggleFreeze(l, metas, f).value, k)
  {
  }

  lemma SyncNativeEvents(l: Ledger, metas: seq<Meta>, env: Env, k: Pubkey)
    requires H.SyncNative(l, metas).Ok?
    ensures KeyFollows(l, Instruction.SyncNative, metas, env, H.SyncNative(l, metas).value, k)
  {
  }

  lemma InitializeMultisigEvents(l: Ledger, metas: seq<Meta>, env: Env, m: u8, r: bool, k: Pubkey)
    requires H.InitializeMultisig(l, metas, m, r, env).Ok?
    ensures KeyFollows(l, Instruction.InitializeMultisig(m, r), metas, env,
                       H.InitializeMultisig(l, metas, m, r, env).value, k)
  {
  }

  lemma WithdrawExcessEvents(l: Ledger, metas: seq<Meta>, env: Env, k: Pubkey)
    requires H.WithdrawExcess(l, metas, env).Ok?
    ensures KeyFollows(l, Instruction.WithdrawExcess, metas, env, H.WithdrawExcess(l, metas, env).value, k)
  {
    Untouched(l, Instruction.WithdrawExcess, metas, env, H.WithdrawExcess(l, metas, env).value, k);
  }

  lemma StageMintEvents(l: Ledger, metas: seq<Meta>, env: Env, st: Staging, k: Pubkey)
    requires X.StageMint(l, metas, st, env).Ok?
    ensures KeyFollows(l, Instruction.StageMint(st), metas, env, X.StageMint(l, metas, st, env).value, k)
  {
  }

  lemma StageImmutableOwnerEvents(l: Ledger, metas: seq<Meta>, env: Env, k: Pubkey)
    requires X.StageImmutableOwner(l, metas, env).Ok?
    ensures KeyFollows(l, Instruction.StageImmutableOwner, metas, env, X.StageImmutableOwner(l, metas, env).value, k)
  {
  }

  lemma TogglePauseEvents(l: Ledger, metas: seq<Meta>, env: Env, p: bool, k: Pubkey)
    requires X.TogglePause(l, metas, p).Ok?
    ensures KeyFollows(l, Instruction.TogglePause(p), metas, env, X.TogglePause(l, metas, p).value, k)
  {
  }

  lemma SetTransferFeeEvents(l: Ledger, metas: seq<Meta>, env: Env, bp: u16, max: u64, k: Pubkey)
    requires X.SetTransferFee(l, metas, bp, max, env).Ok?
    ensures KeyFollows(l, Instruction.SetTransferFee(bp, max), metas, env,
                       X.SetTransferFee(l, metas, bp, max, env).value, k)
  {
  }

  lemma ToggleCpiGuardEvents(l: Ledger, metas: seq<Meta>, env: Env, e: bool, k: Pubkey)
    requires X.ToggleCpiGuard(l, metas, e, env).Ok?
    ensures KeyFollows(l, Instruction.ToggleCpiGuard(e), metas, env, X.ToggleCpiGuard(l, metas, e, env).value, k)
  {
  }

  lemma WithdrawWithheldFromMintEvents(l: Ledger, metas: seq<Meta>, env: Env, k: Pubkey)
    requires X.WithdrawWithheldFromMint(l, metas).Ok?
    ensures KeyFollows(l, Instruction.WithdrawWithheldFromMint, metas, env, X.WithdrawWithheldFromMint(l, metas).value, k)
  {
  }

  /** Only withheld fees of the account or of the mint may have changed. */
  predicate Calm(l: Ledger, l': Ledger, k: Pubkey) {
    && IsOpen(l', k) == IsOpen(l, k)
    && IsLive(l', k) == IsLive(l, k)
    && (IsOpen(l, k) ==>
          var a, a' := AccountAt(l, k), AccountAt(l', k);
          a'.ext.withheld.Some? == a.ext.withheld.Some?
          && a'.(ext := a'.ext.(withheld := a.ext.withheld)) == a)
    && (IsLive(l, k) ==>
          var m, m' := MintAt(l, k), MintAt(l', k);
          m'.ext.fee.Some? == m.ext.fee.Some? && m'.(ext := m'.ext.(fee := m.ext.fee)) == m)
  }

  lemma CalmFollows(l: Ledger, ix: Instruction, metas: seq<Meta>, env: Env, l': Ledger, k: Pubkey)
    requires Calm(l, l', k) && (IsOpen(l, k) ==> EventOf(l, ix, metas, l', k) == Quiet)
    ensures KeyFollows(l, ix, metas, env, l', k)
  {
  }

  lemma {:induction false} HarvestAllCalm(l: Ledger, mint: Pubkey, sources: seq<Meta>, k: Pubkey)
    requires HarvestAll(l, mint, sources).Ok?
    ensures Calm(l, HarvestAll(l, mint, sources).value, k)
    decreases |sources|
  {
    if sources != [] {
      var l1 := HarvestOne(l, mint, sources[0].key).value;
      assert Calm(l, l1, k);
      HarvestAllCalm(l1, mint, sources[1..], k);
    }
  }

  lemma HarvestEvents(l: Ledger, metas: seq<Meta>, env: Env, k: Pubkey)
    requires X.HarvestWithheldToMint(l, metas).Ok?
    ensures KeyFollows(l, Instruction.HarvestWithheldToMint, metas, env, X.HarvestWithheldToMint(l, metas).value, k)
  {
    HarvestAllCalm(l, metas[0].key, metas[1..], k);
    CalmFollows(l, Instruction.HarvestWithheldToMint, metas, env, X.HarvestWithheldToMint(l, metas).value, k);
  }

  /** Like `Calm`, but the balance may have grown. */
  predicate Grown(l: Ledger, l': Ledger, k: Pubkey) {
    && IsOpen(l', k) == IsOpen(l, k)
    && IsLive(l', k) == IsLive(l, k)
    && (IsLive(l, k) ==> MintAt(l', k) == MintAt(l, k))
    && (IsOpen(l, k) ==>
          var a, a' := AccountAt(l, k), AccountAt(l', k);
          a'.ext.withheld.Some? == a.ext.withheld.Some? && a'.amount >= a.amount
          && a'.(amount := a.amount, ext := a'.ext.(withheld := a.ext.withheld)) == a)
  }

  lemma CollectOneGrown(l: Ledger, mint: Pubkey, destination: Pubkey, x: Pubkey, k: Pubkey)
    requires CollectOne(l, mint, destination, x).Ok?
    ensures Grown(l, CollectOne(l, mint, destination, x).value, k)
    ensures k != destination ==> Calm(l, CollectOne(l, mint, destination, x).value, k)
  {
  }

  lemma {:induction false} CollectAllGrown(l: Ledger, mint: Pubkey, destination: Pubkey, sources: seq<Meta>, k: Pubkey)
    requires CollectAll(l, mint, destination, sources).Ok?
    ensures Grown(l, CollectAll(l, mint, destination, sources).value, k)
    ensures k != destination ==> Calm(l, CollectAll(l, mint, destination, sources).value, k)
    decreases |sources|
  {
    if sources != [] {
      var l1 := CollectOne(l, mint, destination, sources[0].key).value;
      CollectOneGrown(l, mint, destination, sources[0].key, k);
      hide CollectOne;
      CollectAllGrown(l1, mint, destination, sources[1..], k);
    }
  }

  lemma CollectEvents(l: Ledger, metas: seq<Meta>, env: Env, n: u8, k: Pubkey)
    requires X.WithdrawWithheldFromAccounts(l, metas, n).Ok?
    ensures KeyFollows(l, Instruction.WithdrawWithheldFromAccounts(n), metas, env,
                       X.WithdrawWithheldFromAccounts(l, metas, n).value, k)
  {
    var l' := X.WithdrawWithheldFromAccounts(l, metas, n).value;
    var ix := Instruction.WithdrawWithheldFromAccounts(n);
    var mint, destination, rest := metas[0].key, metas[1].key, metas[3..];
    CollectAllGrown(l, mint, destination, rest[if |rest| >= n then |rest| - n else 0..], k);
    hide CollectAll, X.CheckWithdrawAuthority;
    if k != destination {
      CalmFollows(l, ix, metas, env, l', k);
    } else {
      GrownFollows(l, ix, metas, env, l', k);
    }
  }

  lemma GrownFollows(l: Ledger, ix: Instruction, metas: seq<Meta>, env: Env, l': Ledger, k: Pubkey)
    requires ix.WithdrawWithheldFromAccounts? && MetaAt(metas, 1).key == k
    requires Grown(l, l', k) && UnpackAccount(At(l, k).data).Ok? && !UnpackAccount(At(l, k).data).value.frozen
    ensures KeyFollows(l, ix, metas, env, l', k)
  {
  }

  // ------------------------------------------------------------ all instructions

  predicate IsCore(ix: Instruction) {
    ix.InitializeMint? || ix.InitializeAccount? || ix.InitializeMultisig? || ix.Transfer? || ix.Approve?
    || ix.Revoke? || ix.SetAuthority? || ix.MintTo? || ix.Burn? || ix.CloseAccount?
  }

  lemma CoreEvents(l: Ledger, ix: Instruction, metas: seq<Meta>, env: Env, k: Pubkey)
    requires IsCore(ix) && Handle(l, ix, metas, env).Ok?
    ensures KeyFollows(l, ix, metas, env, Handle(l, ix, metas, env).value, k)
  {
    match ix {
      case InitializeMint(d, a, f, r) => InitializeMintEvents(l, metas, env, d, a, f, r, k);
      case InitializeAccount(o, r) => InitializeAccountEvents(l, metas, env, o, r, k);
      case InitializeMultisig(m, r) => InitializeMultisigEvents(l, metas, env, m, r, k);
      case Transfer(n, kind) => TransferEvents(l, metas, env, n, kind, k);
      case Approve(n, d) => ApproveEvents(l, metas, env, n, d, k);
      case Revoke => RevokeEvents(l, metas, env, k);
      case SetAuthority(kind, next) => SetAuthorityEvents(l, metas, env, kind, next, k);
      case MintTo(n, d) => MintToEvents(l, metas, env, n, d, k);
      case Burn(n, d) => BurnEvents(l, metas, env, n, d, k);
      case CloseAccount => CloseAccountEvents(l, metas, env, k);
    }
  }

  lemma OtherEvents(l: Ledger, ix: Instruction, metas: seq<Meta>, env: Env, k: Pubkey)
    requires !IsCore(ix) && Handle(l, ix, metas, env).Ok?
    ensures KeyFollows(l, ix, metas, env, Handle(l, ix, metas, env).value, k)
  {
    match ix {
      case ToggleFreeze(f) => ToggleFreezeEvents(l, metas, env, f, k);
      case SyncNative => SyncNativeEvents(l, metas, env, k);
      case WithdrawExcess => WithdrawExcessEvents(l, metas, env, k);
      case StageMint(st) => StageMintEvents(l, metas, env, st, k);
      case StageImmutableOwner => StageImmutableOwnerEvents(l, metas, env, k);
      case TogglePause(p) => TogglePauseEvents(l, metas, env, p, k);
      case SetTransferFee(bp, max) => SetTransferFeeEvents(l, metas, env, bp, max, k);
      case ToggleCpiGuard(e) => ToggleCpiGuardEvents(l, metas, env, e, k);
      case WithdrawWithheldFromMint => WithdrawWithheldFromMintEvents(l, metas, env, k);
      case HarvestWithheldToMint => HarvestEvents(l, metas, env, k);
      case WithdrawWithheldFromAccounts(n) => CollectEvents(l, metas, env, n, k);
    }
  }

  /** Every successful instruction treats every key as its events say. */
  lemma ExecuteEvents(l: Ledger, ix: Instruction, metas: seq<Meta>, env: Env, k: Pubkey)
    requires Execute(l, ix, metas, env).Ok?
    ensures KeyFollows(l, ix, metas, env, Execute(l, ix, metas, env).value, k)
  {
    if IsCore(ix) {
      CoreEvents(l, ix, metas, env, k);
    } else {
      OtherEvents(l, ix, metas, env, k);
    }
  }
}
