/** The token program as a state machine: one instruction at a time, each all or nothing, with
    every other program free to act in between. */
module Machine {
  import opened Prelude
  import opened Ledger
  import opened Multisig
  import opened Totals
  import H = Handlers
  import X = Extensions

  datatype Instruction =
    | InitializeMint(decimals: u8, authority: Pubkey, freezeAuthority: Option<Pubkey>, rentAccount: bool)
    | InitializeAccount(givenOwner: Option<Pubkey>, rentAccount: bool)
    | InitializeMultisig(m: u8, rentAccount: bool)
    | Transfer(amount: u64, transferKind: H.TransferKind)
    | Approve(amount: u64, checkedDecimals: Option<u8>)
    | Revoke
    | SetAuthority(kind: AuthorityType, next: Option<Pubkey>)
    | MintTo(amount: u64, checkedDecimals: Option<u8>)
    | Burn(amount: u64, checkedDecimals: Option<u8>)
    | CloseAccount
    | ToggleFreeze(freeze: bool)
    | SyncNative
    | WithdrawExcess
    | StageMint(staging: X.Staging)
    | StageImmutableOwner
    | TogglePause(pause: bool)
    | SetTransferFee(basisPoints: u16, maximumFee: u64)
    | ToggleCpiGuard(enable: bool)
    | WithdrawWithheldFromMint
    | HarvestWithheldToMint
    | WithdrawWithheldFromAccounts(count: u8)

  /** The dispatch of `process`. */
  function Handle(l: Ledger, ix: Instruction, metas: seq<Meta>, env: H.Env): Result<Ledger> {
    match ix
    case InitializeMint(d, a, f, r) => H.InitializeMint(l, metas, d, a, f, r, env)
    case InitializeAccount(o, r) => H.InitializeAccount(l, metas, o, r, env)
    case InitializeMultisig(m, r) => H.InitializeMultisig(l, metas, m, r, env)
    case Transfer(n, kind) => H.Transfer(l, metas, n, kind, env)
    case Approve(n, d) => H.Approve(l, metas, n, d, env)
    case Revoke => H.Revoke(l, metas)
    case SetAuthority(kind, next) => H.SetAuthority(l, metas, kind, next, env)
    case MintTo(n, d) => H.MintTo(l, metas, n, d)
    case Burn(n, d) => H.Burn(l, metas, n, d, env)
    case CloseAccount => H.CloseAccount(l, metas, env)
    case ToggleFreeze(f) => H.ToggleFreeze(l, metas, f)
    case SyncNative => H.SyncNative(l, metas)
    case WithdrawExcess => H.WithdrawExcess(l, metas, env)
    case StageMint(s) => X.StageMint(l, metas, s, env)
    case StageImmutableOwner => X.StageImmutableOwner(l, metas, env)
    case TogglePause(p) => X.TogglePause(l, metas, p)
    case SetTransferFee(bp, max) => X.SetTransferFee(l, metas, bp, max, env)
    case ToggleCpiGuard(e) => X.ToggleCpiGuard(l, metas, e, env)
    case WithdrawWithheldFromMint => X.WithdrawWithheldFromMint(l, metas)
    case HarvestWithheldToMint => X.HarvestWithheldToMint(l, metas)
    case WithdrawWithheldFromAccounts(n) => X.WithdrawWithheldFromAccounts(l, metas, n)
  }

  /** What the runtime lets a program do to one account: its own accounts are free; another
      program's account may only gain lamports. */
  predicate CellAccepts(c: Cell, c': Cell) {
    Ours(c) || (c'.owner == c.owner && c'.data == c.data && c'.lamports >= c.lamports)
  }

  predicate RuntimeAccepts(l: Ledger, l': Ledger) {
    forall k :: k in l.Keys + l'.Keys ==> CellAccepts(At(l, k), At(l', k))
  }

  lemma AcceptsEverywhere(l: Ledger, l': Ledger, k: Pubkey)
    requires RuntimeAccepts(l, l')
    ensures CellAccepts(At(l, k), At(l', k))
  {
    assert k in l.Keys + l'.Keys || At(l, k) == At(l', k);
  }

  /** One instruction under the runtime's ownership rule. */
  function Execute(l: Ledger, ix: Instruction, metas: seq<Meta>, env: H.Env): Result<Ledger> {
    match Handle(l, ix, metas, env)
    case Err(e) => Err(e)
    case Ok(l') => if RuntimeAccepts(l, l') then Ok(l') else Err(RuntimeRefused)
  }

  /** Either an instruction of this program, or any change made by all other programs together. */
  datatype Step =
    | Instruct(ix: Instruction, metas: seq<Meta>, env: H.Env)
    | Outside(after: Ledger)

  /** What other programs can do to one cell: add lamports to token accounts, anything to their
      own, and hand over an account to the token program only zero-filled. */
  predicate OutsideCell(c: Cell, c': Cell) {
    if Ours(c) then c'.owner == c.owner && c'.data == c.data && c'.lamports >= c.lamports
    else Ours(c') ==> c'.data.Blank?
  }

  ghost predicate OutsideAllowed(l: Ledger, l': Ledger) {
    && (forall k: Pubkey :: OutsideCell(At(l, k), At(l', k)))
    && Total(l', Lamports) == Total(l, Lamports)
  }

  /** A failing step changes nothing. */
  ghost function Next(l: Ledger, s: Step): Ledger {
    match s
    case Instruct(ix, metas, env) =>
      (match Execute(l, ix, metas, env) case Ok(l') => l' case Err(_) => l)
    case Outside(l') => if OutsideAllowed(l, l') then l' else l
  }

  ghost predicate Succeeds(l: Ledger, s: Step) {
    s.Instruct? && Execute(l, s.ix, s.metas, s.env).Ok?
  }

  ghost function Run(l: Ledger, steps: seq<Step>): Ledger
    decreases |steps|
  {
    if steps == [] then l else Run(Next(l, steps[0]), steps[1..])
  }
}
