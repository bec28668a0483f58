# Token-2022: a verified model

A Dafny model of the token program in `program/src` and its wire formats in `interface/src`. It has
three parts.

**The ledger.** Accounts are a map from keys to cells: lamports, owning program, and data (a mint, a
token account, a multisignature, zeroes, or extensions staged before initialization). `Handlers.dfy`
and `Extensions.dfy` say what each instruction does as a function from ledger to ledger or error;
`Processor.dfy` is the program itself, a class whose methods write accounts in place, sometimes before
their last check, and is proved to compute those functions under rollback. `Machine.dfy` makes a state
machine of it: a step is an instruction with any accounts, signers and environment, or anything other
programs may do. `Invariants.dfy` proves what every reachable ledger satisfies, `Events.dfy` reduces
each instruction to one event per account, `Signatures.dfy` says whose signature stands behind a
passing authority check, and `Runs.dfy`, `Custody.dfy`, `Inheritance.dfy`, `Pausing.dfy`,
`Payouts.dfy`, `Overflow.dfy`, `Exact.dfy`, `Success.dfy`, `Births.dfy`, `Settings.dfy` and
`Errors.dfy` hold the main results: the last four say for each instruction exactly when it succeeds,
what the ledger is then, and what its errors mean. `Totals.dfy` has the sums over a ledger. "In a reachable ledger" means in every ledger that satisfies the invariant.

**Multisignatures.** `Multisig.dfy` gives the nested validation loop an exact meaning and shows how it
reacts to reordering, repetition, filtering and extra signers.

**Text and bytes.** `Decimal.dfy` has the printer, trimmer and parser of UI amounts, and
`SignedDecimal.dfy` what the parser makes of a plus sign; `StateCodec.dfy`,
`InstructionCodec.dfy` and `PodInstruction.dfy` have the state and instruction formats on top of
`Bytes.dfy`.

`dafny verify dfyconfig.toml` checks everything.

## Assumptions

- Rollback: an instruction that fails leaves no change. `Processor.TokenProcessor.Process` does it
  explicitly, as the Solana runtime does. Handlers specified by `DoesCleanly` write nothing before they
  fail; transfer, mint, burn and withdraw-excess may (`Processor.ChargedThoughRefused`).
- Runtime ownership: a program changes data of, and takes lamports from, only accounts it owns. This is
  `Machine.RuntimeAccepts` for this program and `Machine.OutsideCell` for all others.
- Accounts handed to the program are zero-filled, which initialization of a mint relies on for the supply.
- The lamports of a ledger total at most `u64::MAX`; they are conserved, so this is asked once.
- The native mint exists at the start, with supply 0 and without mint authority and extensions.
- `rent` is an arbitrary function of the data length; epoch, CPI, memo and hook outcome are inputs of a step.

The formula of transfer fees is the real one, so that a fee never exceeds its amount is proved.

## Where the code decides differently than one may expect

- Balances of a paused mint are not constant: withdrawing collected fees does not look at the pause,
  and neither does an unchecked transfer between accounts that do not carry the pausable extension.
  `Pausing.PausedStep` has the exact condition, `Pausing.PausedBalanceCanRise` and
  `Pausing.PausedBalanceCanFall` are instances.
- A mint that is closed and created anew with more extensions does not bind the empty accounts that
  outlived it: `Inheritance.RecreatedMintInherits` has the exact condition,
  `Inheritance.SurvivorsEscapeFee` an instance.
- So the error of a transfer that should never happen does happen: a checked transfer to such an
  account, when a fee is due. `Success.InvalidStateExactly` has the exact condition,
  `Inheritance.SurvivorCannotWithhold` an instance.
- And so tokens of a non-transferable mint can be transferred between such accounts:
  `Inheritance.NonTransferableExactly` has the exact condition, `Inheritance.SurvivorsTransferBound` an
  instance.
- A zero-filled account of the program with the size of a multisignature counts as zero of zero
  signers, since the initialized flag is not read: an authority with that key needs no signature.
  `Signatures.ValidateOwnerExact` has the exact meaning of the check, and the results about
  authorization are stated in its terms.
- The decimal parser lets a plus sign through in front of the digits, even behind the point, where it
  costs a place, and takes a sign alone for zero: `SignedDecimal.ParsedWithSign` has every case. A lone
  fraction of zeroes such as ".0" is refused.
- A transfer can return Overflow, but only in the fee of a mint that is not the program's, which is
  computed before owners are looked at: `Overflow.TransferOverflowsExactly`.
- The single-field readers take bytes that the unpacker refuses: `StateCodec.FastReadersAcceptMore`.
- A multisignature may require more signers than it stores, and can then never be satisfied:
  `Success.NewMultisigCanSpeak`, `Success.MuteMultisig`.

## Model

| member | source | states |
|---|---|---|
| Invariants.RunInv | program/src/processor.rs:1645-1953 | the invariant (conserved supplies, backed wrapped SOL, no allowance without delegate, an authority-free native mint, sane fee rates) survives every sequence of instructions, failing ones included, with arbitrary other programs in between, and the total of lamports stays |
| Invariants.ExecuteInv | program/src/processor.rs:1645-1953 | each of the 21 instructions, when it succeeds, keeps the invariant and the total of lamports |
| Invariants.TransferInv | program/src/processor.rs:308-580 | a transfer of any kind, fee and receiver, to oneself included, keeps the invariant |
| Invariants.CloseAccountInv | program/src/processor.rs:1197-1291 | closing an account or a mint keeps the invariant: nothing of the mint is left over |
| Invariants.WithdrawExcessInv | program/src/processor.rs:1562-1642 | withdrawing excess lamports keeps the invariant, also with one account as source and destination |
| Invariants.WithdrawWithheldFromAccountsInv | program/src/extension/transfer_fee/processor.rs:204-273 | collecting fees straight from accounts, repeated or including the receiver, keeps the invariant |
| Invariants.OutsideInv | program/src/processor.rs:123-126 | what other programs may do to the accounts (deposits, blank new accounts) keeps the invariant |
| Runs.GenesisInv | program/src/processor.rs:1484-1528 | a ledger holding only the native mint satisfies the invariant |
| Runs.SupplyConserved | program/src/processor.rs:1056-1064 | at the end of every run the balances and withheld fees of all accounts of a mint add up to its supply less the fees it has collected, and to nothing where no mint lives |
| Runs.LamportsConserved | program/src/processor.rs:1624-1639 | no run creates or destroys lamports |
| Runs.WrappedSolBacked | program/src/processor.rs:218-229 | in every reachable ledger an account is native exactly when its mint is the native mint, and then balance plus reserve is covered by its lamports |
| Runs.WithdrawLeavesRent | program/src/processor.rs:1624-1639 | between different accounts the source keeps exactly its rent minimum and the rest arrives, and nothing else changes; on one account nothing changes |
| Signatures.ValidateOwnerExact | program/src/processor.rs:1956-1992 | in every reachable ledger the check passes exactly when the authority is the expected key and either signs itself, no multisignature, or is a multisignature that accepts, so that at least one and as many of its stored keys as it requires really signed, or is a zero-filled account of the program of that size |
| Signatures.SomebodySigned | program/src/processor.rs:1956-1992 | a passing check has a signer among the accounts given to it, unless the key is such a zero-filled account |
| Signatures.UnclaimedOwnerNeedsNoSignature | program/src/processor.rs:1967-1987 | an instance of the exception: a burn without any signer from an account owned by a zero-filled account of multisignature size |
| Signatures.UnclaimedAccountNeedsNoSignature | program/src/processor.rs:1562-1642 | an instance of the exception: the excess lamports of a zero-filled account of multisignature size leave without any signer |
| Runs.EveryDebitAuthorized | program/src/processor.rs:430-475 | a balance falls only by a transfer or burn of that amount, on the word (signature, or signatures of the multisignature, or zero-filled account) of the permanent delegate, of the delegate within its allowance, or of the owner; burning unowned accounts is the only exception |
| Runs.EveryDebitSigned | program/src/processor.rs:430-475 | in a reachable ledger every debit has a signer in its list, unless an unowned account is burned or the authority is a zero-filled account of multisignature size |
| Runs.EveryCloseAuthorized | program/src/processor.rs:1197-1248 | an account disappears only by a close of it, empty or native, without withheld fees, on the word of its close authority or owner, or into the incinerator when unowned |
| Runs.AllowanceIsABudget | program/src/processor.rs:438-465 | over a run without new approval the remaining allowance plus everything the delegate took is at most the starting allowance, and equal unless it was revoked or the owner changed; no other delegate appears |
| Runs.SelfTransferIsFree | program/src/processor.rs:477-510 | a successful transfer to oneself leaves the whole ledger as it was |
| Runs.NoDelegateNoAllowance | program/src/processor.rs:670-671 | in every reachable ledger an account without delegate has allowance 0 |
| Runs.ZeroApprovalAppoints | program/src/processor.rs:636-637 | the converse is false: approving 0 leaves a delegate with allowance 0 |
| Runs.GuardBoundsOutflow | program/src/processor.rs:418-429 | over any run of calls from other programs, with a mint that has no permanent delegate whenever it is live, a guarded account keeps its owner and guard, its delegate and close authority can only be cleared, and the total outflow plus the remaining allowance is at most the starting allowance |
| Runs.FrozenStaysPut | program/src/processor.rs:1293-1341 | from a frozen account, until a thaw, balance, owner, delegate, allowance, close authority and state stay over any run, and with a balance it cannot be closed |
| Runs.FixedSupplyStaysFixed | program/src/processor.rs:759-775 | once a mint has no mint authority it never gets one and its supply never rises |
| Runs.NoFreezeAuthorityNoToggle | program/src/processor.rs:1320-1338 | once a mint has no freeze authority it never gets one and none of its accounts changes between frozen and thawed |
| Runs.EveryHandoverAuthorized | program/src/processor.rs:677-979 | an authority over a mint, of any of the kinds, changes only by SetAuthority for that kind, on the word of its present holder, to the one named |
| Custody.EveryLamportReleased | program/src/processor.rs:1197-1642 | lamports leave an account of the program only in three ways: as excess down to the rent minimum on the word of the owner, mint authority or own key; all of them by a close on the word of whoever may close; or with the wrapped SOL they back, to the same amount, on the word of the owner or of the delegate within the allowance |
| Custody.EveryOwnerChangeAuthorized | program/src/processor.rs:689-731 | an account changes owner only by SetAuthority on the word of the owner, to the one named, unfrozen, unguarded and not immutable; delegate and allowance go, and the close authority of wrapped SOL |
| Custody.EveryCloserChangeAuthorized | program/src/processor.rs:728-752 | a close authority changes only by SetAuthority, on the word of whoever may close the account, or falls away when wrapped SOL gets a new owner |
| Custody.EveryAllowanceChangeAuthorized | program/src/processor.rs:430-475 | delegate and allowance of an account change only by an approval of the owner, a revocation by owner or delegate, a change of owner, or a transfer or burn by the delegate, which lowers balance and allowance alike and dismisses the delegate with the last token |
| Custody.EveryFreezeAuthorized | program/src/processor.rs:1293-1342 | an account is frozen or thawed only on the word of the freeze authority that its mint names, and nothing else of it changes; while it holds anything that mint is live |
| Custody.EverySupplyChangeAuthorized | program/src/processor.rs:981-1195 | a supply rises only by minting on the word of the mint authority and falls only by burning, and a balance of the mint moves by the same amount |
| Custody.EveryPauseAuthorized | program/src/extension/pausable/processor.rs:39-65 | a mint is paused or resumed only on the word of its pause authority |
| Events.ExecuteEvents | program/src/processor.rs:1645-1953 | for every key, every successful instruction does to the account or mint there exactly what one of ten events allows, and the event had its guards met; what an event does not name stays |
| Inheritance.FreshMintInherits | program/src/processor.rs:192-202 | a mint created where no account waits for it has all its extensions inherited |
| Inheritance.InheritsOverRuns | program/src/processor.rs:192-202 | while a mint is not closed every account of it carries the account side of its fee, hook, pausable and non-transferable extensions |
| Inheritance.RecreatedMintInherits | program/src/processor.rs:87-131 | a mint initialized at a key is inherited exactly when the accounts that survive from an earlier mint there, all of them empty, carry the account side of the extensions staged before the call |
| Inheritance.UncheckedTransferExactly | program/src/processor.rs:384-416 | from an account of a fee, hook or pausable mint an unchecked transfer succeeds exactly when the account carries the account side of none of the three and the transfer is in order otherwise; then the mint is not inherited |
| Inheritance.UncheckedTransferRefused | program/src/processor.rs:384-406 | so where the mint is inherited it always fails |
| Inheritance.SurvivorsEscapeFee | program/src/processor.rs:1249-1274 | an instance: in a ledger with two surviving accounts a mint with a fee is initialized, mints to one and an unchecked transfer brings the whole amount to the other |
| Success.InvalidStateExactly | program/src/processor.rs:525-536 | the InvalidState branch that the code says should never happen is reached exactly when a fee is due, source, mint and authority let the amount go, and the receiver is in order but has no room to withhold the fee |
| Inheritance.SurvivorCannotWithhold | program/src/processor.rs:525-536 | an instance: a mint with a fee is initialized, mints to one surviving account, and a checked transfer to the other returns InvalidState |
| Inheritance.ReceiverCanWithhold | program/src/processor.rs:525-536 | where the mint is inherited the branch is not reached |
| Pausing.PausedStep | program/src/processor.rs:340-406 | while its mint is paused, a balance falls exactly when an unchecked transfer takes something out of the account, and rises exactly when one brings something in or collected fees are withdrawn to it; the unchecked transfers account for the whole change but the fees |
| Pausing.PausedOverRuns | program/src/extension/pausable/processor.rs:39-65 | while a mint stays paused its supply is constant; over any run the end balance plus what unchecked transfers took out is at least the start balance plus what they brought in, and equal exactly when no step pays collected fees out to the account |
| Pausing.PausedAndInherited | program/src/processor.rs:384-406 | where the mint is inherited a paused balance never falls, and is constant exactly when no collected fees are paid out to it |
| Pausing.PausedBalanceCanRise | program/src/extension/transfer_fee/processor.rs:112-156 | an instance, a ledger satisfying the invariant and one step, in which a balance of a paused mint rises from 0 to 5 |
| Pausing.PausedBalanceCanFall | program/src/processor.rs:384-406 | an instance, a ledger satisfying the invariant and one unchecked transfer, in which a balance of a paused mint falls from 100 to 0 |
| Payouts.CollectRaises | program/src/extension/transfer_fee/processor.rs:204-273 | collecting fees raises the receiver exactly when some listed account still owes one |
| Payouts.AccountsPayoutSucceedsExactly | program/src/extension/transfer_fee/processor.rs:204-273 | withdrawing from accounts succeeds exactly on the word of the authority over collected fees, for a receiver of the mint that is not frozen, with the mint not among the sources, a listed receiver able to withhold, and a sum that fits; each listed account of the mint has then paid what it withheld, once, the receiver has the sum, nothing else changed |
| Payouts.MintPayoutSucceedsExactly | program/src/extension/transfer_fee/processor.rs:112-156 | withdrawing from the mint succeeds exactly on that word, for such a receiver, while the sum fits; the receiver then has what the mint had collected and the mint nothing |
| Payouts.HarvestSucceedsExactly | program/src/extension/transfer_fee/processor.rs:158-202 | in a reachable ledger any list behind a fee mint is harvested unless it names the mint: the mint has the sum, each listed account of the mint has paid, once, and the others are passed over |
| Payouts.CollectErrors | program/src/extension/transfer_fee/processor.rs:228-270 | collecting fails only on the mint itself, on a listed receiver that cannot withhold, or on overflow |
| Inheritance.NonTransferableStays | program/src/processor.rs:340-345 | over any run, tokens leave an account that carries the non-transferable extension only by burning, and an account that carries the immutable-owner extension keeps its owner |
| Inheritance.NonTransferableExactly | program/src/processor.rs:340-345 | from an account of a non-transferable mint a transfer succeeds exactly when the account lacks the extension, so is not one that inherited from this mint, and the transfer is in order otherwise |
| Inheritance.SurvivorsTransferBound | program/src/processor.rs:1007-1015 | an instance: of two accounts that carry an immutable owner and not the extension, one receives from a non-transferable mint and transfers to the other |
| Overflow.TransferOverflowsExactly | program/src/processor.rs:308-580 | in a reachable ledger a transfer returns Overflow exactly when it gets as far as a fee that leaves u64, which takes a source account and mint of another program; balances, withheld fees and lamports never overflow |
| Overflow.ForeignFeeOverflows | program/src/processor.rs:355-416 | an instance, with source and mint of another program, in which Overflow is returned: the fee is computed before owners are checked |
| Overflow.BurnNeverOverflows | program/src/processor.rs:1184-1191 | the balance and supply subtractions of burn never fail in a reachable ledger |
| Success.MintToOverflowsExactly | program/src/processor.rs:1056-1064 | in a reachable ledger mint-to returns Overflow exactly when its conditions hold and supply plus amount exceeds u64; the balance never overflows first |
| Overflow.LamportMovesNeverOverflow | program/src/processor.rs:1204-1206 | closing, withdrawing excess and synchronizing never return Overflow in a reachable ledger |
| Overflow.HarvestNeverOverflows | program/src/extension/transfer_fee/processor.rs:158-202 | harvesting any list of accounts into a mint never overflows |
| Overflow.HarvestInstructionNeverOverflows | program/src/extension/transfer_fee/processor.rs:178-202 | so the instruction never overflows, whatever mint and accounts are listed |
| Payouts.MintPayoutOverflowsExactly | program/src/extension/transfer_fee/processor.rs:112-156 | paying out the fees in a mint overflows exactly for a receiver of another program that claims too large a balance |
| Payouts.AccountsPayoutOverflowsExactly | program/src/extension/transfer_fee/processor.rs:204-273 | collecting fees from accounts overflows exactly when mint, authority and receiver are in order and some listed account owes more than fits on top of what those before it brought; in a reachable ledger the receiver is then of another program |
| Ledger.FeeAtMostAmount | interface/src/extension/transfer_fee/mod.rs:56-69 | with rates up to 100% the fee exists and never exceeds the amount, in either epoch |
| Exact.FeeOfParts | interface/src/extension/transfer_fee/mod.rs:48-69 | the fee is the share rounded up or the maximum; splitting a transfer never saves fees, sending more never costs less, and what arrives never shrinks when more is sent |
| Exact.TransferExact | program/src/processor.rs:477-580 | between different accounts the source loses the amount, the receiver and its withheld fee together gain it, wrapped SOL moves its lamports along, every other account is untouched |
| Exact.TransferFeeExact | interface/src/extension/transfer_fee/mod.rs:148-158 | what the receiver of a checked transfer is short of the amount is withheld, and is the rate of this epoch applied to the amount and rounded up, or the maximum of this epoch: of the older schedule before the epoch of the newer one, of the newer from then on |
| Success.TransferGives | program/src/processor.rs:477-580 | a transfer between accounts gives exactly one ledger, field by field: balances, allowance, withheld fee, lamports, transferring flags off after a hook, all else as it was |
| Exact.CloseExact | program/src/processor.rs:1197-1291 | closing leaves an empty system account and hands all lamports over; a mint closes only when no account holds anything of it |
| Exact.BirthExact | program/src/processor.rs:87-236 | a new account is rent-exempt, of a live mint, in its default state, native exactly for the native mint and then fully backed; a new mint that starts accounts frozen has a freeze authority |
| Births.AccountSucceedsExactly | program/src/processor.rs:153-252 | an account is initialized exactly when it is blank or staged, rent-exempt and listed with a live mint of the program; it then has exactly these fields: that mint, its owner, for wrapped SOL the lamports above the rent as balance and the rent as reserve, else zero and none, the default state of the mint, and the extensions staged or imposed |
| Births.MintSucceedsExactly | program/src/processor.rs:87-131 | a mint is initialized exactly when its account is blank or staged, rent-exempt, with extensions that go together and somebody to thaw accounts that start frozen; it then has the given authorities and decimals, no supply and what was staged |
| Births.StageMintSucceedsExactly | program/src/extension/transfer_fee/processor.rs:26-58 | staging a mint extension succeeds exactly on an account that awaits a mint with room, with keys other than zero and at most 100% of fee; the named authorities are appointed, a fee runs from this epoch in both schedules, a pausable mint starts unpaused, the rest stays |
| Births.StageOwnerSucceedsExactly | program/src/processor.rs:1420-1429 | staging an immutable owner succeeds exactly on an account that awaits initialization with room, and changes nothing else |
| Births.UnpackSucceedsExactly | interface/src/extension/mod.rs:262-268 | bytes are read as an account from 165 of them, as a mint from 82, as neither at 355 |
| Settings.SetAuthoritySucceedsExactly | program/src/processor.rs:677-979 | setting an authority, of an account, a mint or any extension, succeeds exactly on the word of its holder under the guards of its kind, giving it up included, and then the new ledger is the old one with this authority changed |
| Settings.RevokeSucceedsExactly | program/src/processor.rs:643-675 | revoking succeeds exactly on the word of the owner or of the delegate for an account that is not frozen, and then only delegate and allowance are gone |
| Settings.ToggleFreezeSucceedsExactly | program/src/processor.rs:1293-1342 | freezing or thawing succeeds exactly on the word of the freeze authority of the account's mint, in the other state and not native, and then only the state changes |
| Settings.TogglePauseSucceedsExactly | program/src/extension/pausable/processor.rs:39-65 | pausing or resuming succeeds exactly on the word of the pause authority, and then only the pause changes |
| Settings.ToggleCpiGuardSucceedsExactly | program/src/extension/cpi_guard/processor.rs:21-53 | the guard is switched exactly on the word of the owner, outside calls by other programs, with room for it, and then only the guard changes |
| Settings.SetTransferFeeSucceedsExactly | program/src/extension/transfer_fee/processor.rs:60-110 | a fee is set exactly on the word of the fee authority and up to 100%; the rate of the current epoch holds for it and the next, a pending change is dropped, from the second epoch on the new rate holds, and collected fees and all else stay |
| Success.TransferSucceedsExactly | program/src/processor.rs:308-580 | in a reachable ledger a transfer of any kind succeeds exactly when source, mint, authority and receiver meet the listed conditions, none of them arithmetic but the balance and the allowance |
| Success.MintToSucceedsExactly | program/src/processor.rs:981-1068 | minting succeeds exactly under its conditions and while the supply fits u64, and then the new ledger is the old one with account and supply grown alike |
| Success.BurnSucceedsExactly | program/src/processor.rs:1070-1195 | burning succeeds exactly under its conditions, which name who may debit the account, and then the new ledger is the old one with account, allowance and supply lowered |
| Success.CloseSucceedsExactly | program/src/processor.rs:1197-1291 | closing succeeds exactly under its conditions, and then the new ledger is the old one with the lamports moved and the account emptied |
| Success.SyncSucceedsExactly | program/src/processor.rs:1344-1374 | in a reachable ledger synchronizing succeeds on every native account and nothing else, and sets the balance to the lamports above the reserve |
| Success.WithdrawSucceedsExactly | program/src/processor.rs:1562-1642 | withdrawing excess succeeds exactly on the word of the right key and down to the rent minimum; from a multisignature on its signers, and from a zero-filled one on anybody |
| Success.ApproveSucceedsExactly | program/src/processor.rs:582-641 | approving succeeds exactly under its conditions, on the word of the owner, and then only delegate and allowance change |
| Success.MultisigSucceedsExactly | program/src/processor.rs:254-306 | a multisignature is initialized exactly on a zero-filled rent-exempt account of its size for one to eleven keys, requiring one to eleven, and stores the keys in order |
| Success.NewMultisigSpeaks | program/src/processor.rs:254-306 | from then on the check for it passes exactly when the listed keys accept with that requirement |
| Success.NewMultisigCanSpeak | program/src/processor.rs:278-290 | and some signers satisfy it exactly when it requires no more keys than it was given |
| Success.MuteMultisig | program/src/processor.rs:278-290 | an instance of more required than given: initialization succeeds and no signers ever satisfy it |
| Errors.TransferErrors | program/src/processor.rs:308-580 | a failing transfer fails in its own checks, in the quote of the mint, in the debit or in the delivery, and each of its own errors names a guard that is indeed violated |
| Errors.QuoteErrors | program/src/processor.rs:342-406 | the errors of the quote: each names a violated guard about mint, decimals, pause or extensions |
| Errors.SpendErrors | program/src/processor.rs:430-475 | the errors of the debit: allowance too small, wrong key, missing signature, or a malformed multisignature |
| Errors.DeliverErrors | program/src/processor.rs:483-580 | the errors of the delivery: each names what the receiver, the memo, the hook or the fee lacks |
| Errors.ValidateErrors | program/src/processor.rs:1956-1992 | the errors of the authority check: another key, no signature of its own, or a multisignature |
| Errors.BurnErrors | program/src/processor.rs:1070-1195 | each error of a burn names a violated guard, or is that of the debit |
| Errors.MintToErrors | program/src/processor.rs:981-1068 | each error of minting names a violated guard, or is that of the authority check |
| Errors.CloseErrors | program/src/processor.rs:1197-1291 | each error of closing names a violated guard, or is that of the authority check |
| Errors.AccountArmErrors | program/src/processor.rs:689-752 | each error of setting an authority of an account names a violated guard, or is that of the authority check |
| Errors.MintArmErrors | program/src/processor.rs:753-979 | each error of setting an authority of a mint names a violated guard, or is that of the authority check |
| Errors.InitializeErrors | program/src/processor.rs:87-252 | each error of initializing a mint or an account names what is wrong with the list, the account, its rent, or the mint |
| Errors.MultisigErrors | program/src/processor.rs:254-306 | each error of initializing a multisignature names a wrong size, use, rent or number |
| Errors.AllowanceErrors | program/src/processor.rs:582-675 | each error of approving or revoking names a violated guard, or is that of the authority check |
| Errors.FreezeErrors | program/src/processor.rs:1293-1374 | each error of freezing, thawing or synchronizing names a violated guard, or is that of the authority check |
| Errors.WithdrawErrors | program/src/processor.rs:1562-1642 | each error of withdrawing excess names a violated guard, or is that of the authority check |
| Errors.MintSettingErrors | program/src/extension/transfer_fee/processor.rs:60-110 | each error of setting a fee or toggling a pause names what is missing, or is that of the authority check |
| Errors.GuardErrors | program/src/extension/cpi_guard/processor.rs:21-53 | each error of switching the guard names a call by another program or want of room, or is that of the authority check |
| Errors.MintPayoutErrors | program/src/extension/transfer_fee/processor.rs:112-156 | each error of withdrawing from the mint names a violated guard, or is that of the authority check |
| Errors.StageErrors | program/src/extension/transfer_fee/processor.rs:26-58 | each error of staging a mint extension names the account, the room, a zero key or the fee |
| Processor.TokenProcessor.ValidateOwner | program/src/processor.rs:1956-1992 | the verdict of the specification, by the nested loop where the authority is a multisignature |
| Processor.TokenProcessor.InitializeMint | program/src/processor.rs:87-151 | in-place handler: the specified ledger, or the same error with nothing written |
| Processor.TokenProcessor.InitializeAccount | program/src/processor.rs:153-252 | in-place handler for all three ways to give the owner: the specified ledger, or the same error with nothing written |
| Processor.TokenProcessor.InitializeMultisig | program/src/processor.rs:254-306 | in-place handler with its signer loop: the specified ledger, or the same error with nothing written |
| Processor.TokenProcessor.ChargeAuthority | program/src/processor.rs:418-475 | the authority chain of transfer, with the allowance written before later checks |
| Processor.TokenProcessor.Transfer | program/src/processor.rs:308-580 | in-place handler, writing the allowance and the source before the last checks: the specified ledger, or the same error, and what is left when the receiver refuses |
| Processor.TokenProcessor.Approve | program/src/processor.rs:582-641 | in-place handler: the specified ledger, or the same error with nothing written |
| Processor.TokenProcessor.Revoke | program/src/processor.rs:643-675 | in-place handler: the specified ledger, or the same error with nothing written |
| Processor.TokenProcessor.SetAuthority | program/src/processor.rs:677-979 | in-place handler over accounts and mints: the specified ledger, or the same error with nothing written |
| Processor.TokenProcessor.MintTo | program/src/processor.rs:981-1068 | in-place handler: same error, or the specified ledger |
| Processor.TokenProcessor.Burn | program/src/processor.rs:1070-1195 | in-place handler: same error, or the specified ledger |
| Processor.TokenProcessor.CloseAccount | program/src/processor.rs:1197-1291 | in-place handler with deletion of the account: the specified ledger, or the same error with nothing written |
| Processor.TokenProcessor.ToggleFreeze | program/src/processor.rs:1293-1342 | in-place handler: the specified ledger, or the same error with nothing written |
| Processor.TokenProcessor.SyncNative | program/src/processor.rs:1344-1374 | in-place handler: the specified ledger, or the same error with nothing written |
| Processor.TokenProcessor.WithdrawExcess | program/src/processor.rs:1562-1642 | in-place handler: same error, or the specified ledger |
| Processor.TokenProcessor.Process | program/src/processor.rs:1645-1953 | dispatch with rollback: a failure leaves the ledger untouched although handlers write early; a reachable ledger stays in order and keeps its lamports |
| Processor.ChargedThoughRefused | program/src/processor.rs:455-506 | a refused transfer leaves the allowance charged when the handler runs alone, and untouched under rollback |
| Multisig.ValidateSigners | program/src/processor.rs:1967-1987 | the nested loop accepts exactly when every stored key that is listed signs at its first listing, and at least m stored positions are listed |
| Multisig.MatchSigner | program/src/processor.rs:1973-1983 | the inner loop over stored positions with its matched flags and counter |
| Multisig.AcceptedMeansSigned | program/src/processor.rs:1973-1986 | acceptance gives m different stored positions whose keys really signed |
| Multisig.Satisfiable | program/src/processor.rs:1973-1986 | some list of accounts is accepted exactly when no more keys are required than stored |
| Multisig.AcceptsWhenConsistent | program/src/processor.rs:1973-1986 | when the signer flag depends on the key, acceptance is a plain count of signed stored positions, with no stored key listed unsigned |
| Multisig.VerdictIgnoresOrder | program/src/processor.rs:1973-1986 | when the signer flag depends on the key, reordering, repeating or dropping unrelated accounts does not change the verdict |
| Multisig.SignersOnlyHelp | program/src/processor.rs:1973-1986 | adding a signed account anywhere never turns acceptance into refusal |
| Multisig.ExtractMultisigAccounts | program/src/onchain.rs:21-48 | the filter loop keeps exactly the listed accounts with a stored key, in order, and nothing for an account that is no multisignature |
| Multisig.KeepSplits | program/src/onchain.rs:29-48 | filtering goes account by account: one is kept exactly when its key is stored, whatever stands around it |
| Multisig.FilterKeepsVerdict | program/src/onchain.rs:29-48 | validating the filtered list gives the verdict of the full list, for any flags |
| Multisig.TransferMetas | program/src/onchain.rs:86-115 | the account list of an on-chain transfer: the authority flag is cleared for a multisignature and the stored keys are pushed as signers |
| Multisig.ForcedFlags | program/src/onchain.rs:104-114 | with the flags the helper sets the verdict is the count of stored positions listed, so nothing accepted with the real flags is refused |
| Decimal.AmountToUiAmountString | program/src/lib.rs:51-63 | padding and inserting the point yields the one text that spells the amount with a point before its last `decimals` digits, one digit or more before the point, and no leading zero but a lone one; digits alone without decimals |
| Decimal.PrintedHasShape | program/src/lib.rs:51-63 | a text is the printed amount exactly when it has that shape and its digits spell the amount |
| Decimal.ShiftIsQuotient | program/src/lib.rs:51-63 | the digits before the printed point are the quotient by 10^decimals, those behind it the remainder |
| Decimal.AmountToUiAmountStringTrimmed | program/src/lib.rs:65-79 | the printed text less zeroes at its end, and less the point if nothing is left behind it; the digits before the point stay |
| Decimal.TrimmedHasShape | program/src/lib.rs:65-79 | trimming removes from the end of the printed text only zeroes and the point, all of them and no digit before the point |
| Decimal.TryUiAmountIntoAmount | program/src/lib.rs:82-104 | the parser with its zero-pushing loop |
| Decimal.ParseExact | program/src/lib.rs:82-104 | on every string without plus sign the parser yields v exactly when the string is a numeral (one point at most, digits, not both parts empty) whose value is v / 10^decimals and v fits 64 bits |
| Decimal.PrintedIsExact | program/src/lib.rs:51-104 | for every u64 amount and every u8 decimals, the printed and the trimmed form both parse back to the amount, so trimming keeps the value |
| Decimal.PrintingIsInjective | program/src/lib.rs:51-79 | for one decimals value distinct amounts print differently, trimmed or not |
| SignedDecimal.ParsedWithSign | program/src/lib.rs:82-104 | on every string with a plus sign the parser yields v exactly in two cases: the sign opens the whole part and does not count, though it may stand without digits when there are decimals; or it opens a lone fraction and the value is read with one decimal less |
| SignedDecimal.SignIsHarmlessExactly | program/src/lib.rs:82-104 | a value read with a sign is that of the text without it exactly when the sign stands in front of a numeral |
| SignedDecimal.LeadingPlus | program/src/lib.rs:82-104 | a sign put in front of any text without one changes the answer exactly when the text has no digit to stand on and there are decimals, and then zero is read where an error was |
| SignedDecimal.LonePlus | program/src/lib.rs:82-104 | an instance: a sign alone parses to zero with any positive decimals, and the empty text to an error |
| SignedDecimal.PlusBehindPoint | program/src/lib.rs:82-104 | an instance: with two decimals ".+5" parses to 5 where ".5" parses to 50 |
| StateCodec.PackMint | interface/src/state.rs:72-93 | packs in place over any old bytes; absent options leave their old body, bytes behind stay, unpacking the buffer returns the mint, and every byte is given: tags 1 0 0 0 or 0 0 0 0 at 0 and 46, the supply little-endian at 36, decimals at 44, initialized at 45 |
| StateCodec.PackAccount | interface/src/state.rs:164-194 | packs in place over any old bytes; absent options leave their old body, bytes behind stay, unpacking the buffer returns the account, and every byte is given: keys at 0 and 32, amount at 64, tags at 72, 109 and 129, state at 108, allowance at 121 |
| StateCodec.PackMultisig | interface/src/state.rs:256-267 | packs in place with its loop over signers, unpacking the buffer returns the multisignature, and every byte is given |
| StateCodec.PackKeyOption | interface/src/state.rs:274-285 | writes 1 0 0 0 and the key when present, 0 0 0 0 and nothing else when absent |
| StateCodec.PackU64Option | interface/src/state.rs:294-305 | writes 1 0 0 0 and the eight bytes of the number when present, 0 0 0 0 and nothing else when absent |
| StateCodec.UnpackMultisig | interface/src/state.rs:237-255 | the unpacking loop over 32-byte chunks |
| StateCodec.MintRoundTrip | interface/src/state.rs:51-93 | unpack of pack is the mint, whatever the buffer held |
| StateCodec.AccountRoundTrip | interface/src/state.rs:148-194 | unpack of pack is the account, whatever the buffer held |
| StateCodec.MultisigRoundTrip | interface/src/state.rs:237-267 | unpack of pack is the multisignature |
| StateCodec.MintRepack | interface/src/state.rs:51-93 | packing an unpacked mint back into its buffer changes no byte |
| StateCodec.AccountRepack | interface/src/state.rs:148-194 | packing an unpacked account back into its buffer changes no byte |
| StateCodec.MintReadsExactly | interface/src/state.rs:51-71 | 82 bytes are a mint exactly when both option tags are 0 or 1 with zeroes behind and the initialized byte is 0 or 1, and then lie as the mint that is read |
| StateCodec.AccountReadsExactly | interface/src/state.rs:148-163 | 165 bytes are an account exactly when the three option tags are well-formed and the state byte is at most 2, and then lie as the account that is read |
| StateCodec.MultisigReadsExactly | interface/src/state.rs:237-255 | bytes are a multisignature exactly when the initialized byte is 0 or 1, and then lie as the one that is read |
| StateCodec.FastReadersAgree | interface/src/generic_token_account.rs:36-65 | on bytes the full unpacker accepts the owner and mint readers return the unpacked fields exactly when the account is initialized and length and type byte mark an account |
| StateCodec.LedgerAccountIsReadable | interface/src/state.rs:164-194 | every account of the ledger model, packed over any old bytes, is read back by the unpacker and, in owner and mint, by the fast readers |
| StateCodec.FastReadersAcceptMore | interface/src/state.rs:317-326 | on 165 bytes the readers accept and the unpacker refuses exactly when the state byte is above 2 or an option tag is malformed under a nonzero state |
| StateCodec.PodViewAgrees | interface/src/pod.rs:161-224 | the in-place option view agrees with the copying unpacker on every well-tagged option, and is neither present nor absent on any other tag |
| InstructionCodec.Pack | interface/src/instruction.rs:882-1058 | packing pushes the tag and the fields of each of the 45 variants |
| InstructionCodec.PackPayload | interface/src/instruction.rs:882-1058 | the pushes behind the tag, per layout |
| InstructionCodec.PackExtensionTypes | interface/src/instruction.rs:974-979 | the loop that pushes two bytes per extension type |
| InstructionCodec.UnpackExtensionTypes | interface/src/instruction.rs:828-834 | the loop over two-byte chunks; an odd byte or unknown code is an error |
| InstructionCodec.Unpack | interface/src/instruction.rs:738-878 | unpacking of the 45 tags computes the table-driven decoder |
| InstructionCodec.UnpackedExact | interface/src/instruction.rs:738-878 | unpacking yields an instruction exactly when the input is its packed form, with any bytes behind it unless the tag is 21, 24 or 29 |
| InstructionCodec.RoundTrip | interface/src/instruction.rs:738-1058 | unpack of pack is the instruction, also with appended bytes except for tags 21, 24 and 29 |
| InstructionCodec.FirstBytes | interface/src/instruction.rs:882-1058 | the first byte of each of the 45 instructions |
| InstructionCodec.PackedLayout | interface/src/instruction.rs:882-1058 | the bytes behind it, one by one: amounts little-endian, an optional key as 1 and the key or 0, codes and keys at their places, and nothing more |
| InstructionCodec.UnpackErrors | interface/src/instruction.rs:738-878 | bytes that represent no instruction are an invalid instruction, or with tags 21 and 29 possibly invalid account data |
| InstructionCodec.PackingIsPrefixFree | interface/src/instruction.rs:882-1058 | no packed instruction is a proper prefix of another, those three tags aside |
| InstructionCodec.PackingIsInjective | interface/src/instruction.rs:882-1058 | distinct instructions pack differently |
| InstructionCodec.AuthorityCodes | interface/src/instruction.rs:1159-1205 | authority types and codes correspond one to one, and other codes are refused |
| InstructionCodec.ExtensionCodes | interface/src/extension/mod.rs:1135-1148 | extension types and 16-bit codes correspond one to one |
| InstructionCodec.AuthorityNumbers | interface/src/instruction.rs:1159-1180 | the code of each authority type |
| InstructionCodec.ExtensionNumbers | interface/src/extension/mod.rs:1056-1122 | the code of each extension type |
| InstructionCodec.UnpackPubkey | interface/src/instruction.rs:1060-1066 | takes 32 bytes or fails, losing none |
| InstructionCodec.UnpackPubkeyOption | interface/src/instruction.rs:1068-1079 | takes a tagged optional key or fails, losing no byte |
| InstructionCodec.UnpackU64 | interface/src/instruction.rs:1100-1107 | takes eight bytes or fails, losing none |
| InstructionCodec.UnpackAmountDecimals | interface/src/instruction.rs:1109-1113 | takes nine bytes or fails, losing none |
| PodInstruction.PodDecodedExact | program/src/processor.rs:1645-1945 | the dispatcher reads an instruction exactly when `unpack` reads the same one, except that fixed-size layouts must end there |
| PodInstruction.PodAcceptsPacked | program/src/pod_instruction.rs:120-148 | the dispatcher reads back every packed instruction |
| PodInstruction.TrailingByteTells | interface/src/instruction.rs:2013-2019 | after one appended byte `unpack` still reads the instruction, and the dispatcher does exactly on the layouts without fixed size |
| PodInstruction.KeyOptionsAgree | program/src/pod_instruction.rs:120-132 | the two optional-key readers accept the same bytes with the same key |

## Left out

- The byte layout of extensions: whether staged or required extensions fit into an account is one input
  (`room`), and extensions are fields of a mint or an account. Base state and instructions are modelled
  in bytes.
- Error codes of unpacking an account with extensions are merged to three, and a missing extension is
  always `ExtensionNotFound`; which instruction fails is not affected.
- Borrowing one account twice, which panics in the program, is an error here.
- The transfer hook is a call that succeeds or fails and changes no token account; the `transferring`
  flag set around it is modelled.
- Writable flags, the account of the rent sysvar (a boolean), compute limits, and the removal of accounts
  without lamports at the end of a transaction.
- The processors of extensions (`Extensions`) are functions on values, without writes in place.
- Confidential transfers and their proofs: only the answers the handlers ask of them remain.
- Reallocate, memo-transfer switch, update of hook and of default state, metadata and groups,
  interest-bearing and scaled amounts, and `CreateNativeMint`.
- Floating-point conversions of UI amounts.
- Keys of programs and of the native mint are constants; the base58 texts they are declared with are not
  decoded.
- UTF-8: which bytes are valid text is a parameter of the instruction codec.
- Strings are sequences of characters in `Decimal`; the program compares byte lengths, which differs only
  on text that both refuse.
- Extra accounts of a transfer hook in the on-chain helper, and the runtime's check that forced signer
  flags are backed by signatures.
- Runs.GuardBoundsOutflow: excludes permanent delegates and accounts owned by the system program or the
  incinerator, which the guard does not bind.
- Runs.SupplyConserved: without confidential transfers. A confidential deposit lowers a visible balance and
  leaves the supply, so with them the encrypted balances would have to be counted as well.
- Instruction builders, error texts, serde, logging, the command line and the other clients.
