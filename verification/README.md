# Agent registry: a verified model

`agent-registry` is the on-chain program in which builders stake a bond of $AGENT, list trading agents, and are allowed
an amount of trader capital (AUM) that their bond stands behind. This project models the whole program as one state
machine and proves what its documentation promises about whole runs, or, where the code falls short of the promise,
exactly when it holds.

## How the model is built

* `Types.dfy`, `Tiers.dfy`, `Tokens.dfy`: machine integers, constants and account records; the tier table; token
  transfers and the supply they conserve. A program-derived address is a map key (a builder's key, a listing's builder
  and index, a pending slot's seed byte, a builder's bond vault), creating an account is insert-if-absent, closing one is
  removal.
* `AdminSpec.dfy`, `BondSpec.dfy`, `ListingSpec.dfy`, `AumSpec.dfy`: each instruction as a function from state to new
  state or error. `Machine.dfy` joins them to a step function `Process`, and a list of transactions to the states
  `StateAt(s0, txs, n)`. A failed transaction changes nothing but the clock. Every run theorem quantifies over every
  list of transactions, by any signers, failing ones included, with other people's token transfers in between; the
  clock is positive and never runs backwards. `IsGenesis` is any state right after `initialize_config`.
* `Registry.dfy`: the program in its own imperative form, a class whose fields the handlers update step by step,
  `execute_change` writing the tiers before validating them and `record_deposit` the builder before the listing.
  `Submit` is the transaction that undoes a failed handler. Each handler is proved against its function, and `SubmitAll`
  against `StateAt`, so every theorem below is about these methods. The table lists the handlers whose steps differ from
  their function's; the others run the same guards as theirs, and their content is in the theorems.
* The theorems: `Timelock.dfy` (governance), `Escrow.dfy` (money), `Accounting.dfy` (AUM), `Coverage.dfy` (bond against
  AUM), `Unbonding.dfy` (the unbonding clock), `Lifecycle.dfy` (listings), `Guardian.dfy` (what the guardian cannot do),
  `WindDown.dfy` (a way out always exists), `Deposits.dfy` (order does not matter), `Effects.dfy` (each instruction:
  exactly when it takes effect and everything it then changes, what undoes what, and who installed a trading key),
  `Errors.dfy` (a table of reasons to fail, read off the error messages; the error reported is the first that holds).
* `Witnesses.dfy`: concrete runs from genesis on which a promise fails.

`MIN_TIMELOCK_DELAY` depends on a build feature, so the state carries which build it is and theorems hold for both.

## Where the code and its documentation differ

The model follows the code.

* "Can veto any pending change" (`state.rs:156`): a queue instruction stores its own kind in the slot of a kind the
  caller names. If the two differ the change can be neither vetoed nor executed, ever, and the slot is lost.
  `Timelock.VetoReachAfterQueue` gives the exact condition, `Timelock.MisfiledChangeIsStuck` the consequence,
  `Witnesses.MisfiledChange` a run.
* "A guardian that is the authority is not a guardian" (`governance.rs:63`): a transfer of authority is not compared
  with the guardian. `Timelock.SeparationStep` gives the exact condition, `Witnesses.GuardianCrowned` a run.
* "Sum of `aum_current` across every listing" (`state.rs:191`): withdrawals saturate separately on the two counters.
  `Accounting.SumStaysExact` gives the exact condition, `Accounting.AumAgreement` the bound that always holds,
  `Witnesses.TotalIsNotAlwaysTheSum` a run.
* "Total AUM a builder may take on" (`state.rs:76`): a slash, a tier update, and a stake on a tier cached before an
  update can leave capital above the ceiling. `Coverage.ShortfallGrowsExactly` gives the exact condition on one
  transaction, checkable beforehand, `Coverage.WithinThroughoutExactly` the one on whole runs;
  `Witnesses.SlashUncoversCapital`, `Witnesses.UpdateUncoversCapital` and `Witnesses.StakeUncoversCapital` are runs.
* "The guardian only has to stay awake" (`governance.rs:355`): the authority replaces the guardian at once, also while a
  change is pending. `Timelock.VetoWhilePending` says exactly which keys can still veto it, `Witnesses.RotatedGuardian`
  is a run.
* "So a misconfiguration cannot strand builder bonds indefinitely" (`constants.rs:22`): set-up does not apply the bound.
  `Timelock.PeriodBounded` gives the exact condition, `Witnesses.YearLongPeriod` a genesis state.
* The error text "14-day" names a default, not the configurable period, and the repository's README lists
  `transfer_authority`, `set_vault_authority` and `update_tiers` as direct instructions; only the queued forms exist.
* Validating tiers again at execution because the unbonding period "may have moved" (`governance.rs:341`) never matters:
  `Timelock.ExecutionAlwaysPossible`.

## Model

| member | source | states |
|---|---|---|
| Timelock.ProtectedChangesWereAnnounced | programs/agent-registry/src/instructions/governance.rs:173-364 | every change to authority, vault authority or tiers on any run is the execution of a change of that kind and payload that the then authority queued at least the delay then in force earlier (no less than any earlier delay or the build's floor), unresolved in between, executed by the authority of the day, and alters nothing else |
| Timelock.EveryExecutionEnacts | programs/agent-registry/src/instructions/governance.rs:316-349 | every successful execution on any run, whether it alters a setting or not, leaves exactly the configuration one earlier queue call for that slot announced, frees the slot, and that slot was not resolved in between |
| Timelock.Announcement | programs/agent-registry/src/instructions/governance.rs:142-197 | every pending change on any run comes from one queue transaction by the authority, with its time, payer and eta, and no execution or veto of its slot since |
| Timelock.GovernanceRateLimit | programs/agent-registry/src/instructions/governance.rs:57-86 | the k-th executed change of one kind comes no earlier than k initial delays after governance was initialised, whatever vetoes, re-queues and delay raises happen |
| Timelock.AlwaysPaced | programs/agent-registry/src/instructions/governance.rs:277-283 | the invariant behind the rate limit: a pending change waits one more delay than the executions before it |
| Timelock.DelayNeverShrinks | programs/agent-registry/src/instructions/governance.rs:130-138 | on any run the delay in force never decreases and governance, once there, stays |
| Timelock.AdminAlwaysValid | programs/agent-registry/src/state.rs:103-115 | every reachable state has strictly increasing tier tables, also in pending updates, a positive unbonding period, a delay within its bounds, and nothing pending without governance |
| Timelock.ExecutionAlwaysPossible | programs/agent-registry/src/instructions/governance.rs:316-349 | in every reachable state execution succeeds if and only if the slot holds its own kind, signer and refund account match and the eta has passed; the re-validation never fails |
| Timelock.PeriodBounded | programs/agent-registry/src/instructions/config.rs:68-83 | at any point of a run the unbonding period is at most 90 days if and only if it was at set-up or has been set since; until set it is the initial one |
| Timelock.SlotsHoldTheirKind | programs/agent-registry/src/instructions/governance.rs:151-163 | on runs whose queue calls name their own kind every slot holds its own kind |
| Timelock.SlotStep | programs/agent-registry/src/state.rs:131-141 | queueing fills only a free slot, resolving empties only a slot holding its own kind, and no step touches any other slot |
| Timelock.MisfiledChangeIsStuck | programs/agent-registry/src/instructions/governance.rs:200-252 | a slot holding another kind is never executed, vetoed or queued into again on any later run |
| Timelock.VetoReach | programs/agent-registry/src/state.rs:156-159 | the guardian can veto a pending change right now if and only if it sits in the slot of its own kind |
| Timelock.VetoReachAfterQueue | programs/agent-registry/src/instructions/governance.rs:356-364 | what a queue call announces can be vetoed if and only if the call named its own kind |
| Timelock.VetoWhilePending | programs/agent-registry/src/instructions/governance.rs:351-364 | as long as an announced change is unresolved, a key, the guardian's at the announcement included, can veto it at any later point if and only if the queue call named its own kind and the key is guardian or authority at that point |
| Timelock.SeparationStep | programs/agent-registry/src/instructions/governance.rs:62-69 | an instruction keeps guardian and authority different keys if and only if it does not execute a transfer to the guardian |
| Timelock.AlwaysSeparate | programs/agent-registry/src/instructions/governance.rs:104-117 | guardian and authority stay different on every run without such an execution |
| Guardian.GuardianOnlyRuns | programs/agent-registry/src/instructions/governance.rs:17-24 | a key with no other role, signing alone from any state, changes no configuration, governance, builder or balance; it only removes proposals and pauses live listings, successes counted exactly by what is used up, and none unless it is the guardian |
| Guardian.GuardianStep | programs/agent-registry/src/instructions/governance.rs:390-416 | one such step: a success is the guardian's and uses up exactly one proposal or one live listing |
| Escrow.SurplusNeverShrinks | programs/agent-registry/src/instructions/bond.rs:181-203 | on any run a vault's balance minus its bond starts at zero and never decreases, whatever accounts payments alias and whoever donates |
| Escrow.SurplusStep | programs/agent-registry/src/instructions/bond.rs:22-36 | no transaction of any signer lowers a vault's surplus or takes the vault out of the program's hands |
| Escrow.SupplyIsConstant | programs/agent-registry/src/instructions/bond.rs:185-196 | no run creates or destroys tokens of any mint |
| Escrow.AlwaysSound | programs/agent-registry/src/instructions/builder.rs:20-30 | every reachable state is sound: vaults cover bonds, tables are valid, the supply fits 64 bits |
| Escrow.BondsAreBacked | programs/agent-registry/src/state.rs:189-190 | in every reachable state all bonds together are at most the token supply there was at the start |
| Escrow.StakeExactly | programs/agent-registry/src/instructions/bond.rs:40-75 | a stake succeeds if and only if the builder is registered, not unbonding and owns enough of the agent mint; neither checked sum can overflow |
| Escrow.StakeEffect | programs/agent-registry/src/instructions/bond.rs:59-65 | source, vault and bond move by the amount, the tier is the highest whose threshold the bond reaches, and nothing else in the state changes |
| Escrow.WithdrawExactly | programs/agent-registry/src/instructions/bond.rs:148-207 | a withdrawal succeeds if and only if a request is at least the period old, the destination holds the agent mint, and the amount is positive, within the bond, and leaves the threshold of the cheapest tier whose ceiling covers the capital (none covering, none succeeds; no capital, any amount); funds are never short |
| Escrow.WithdrawEffect | programs/agent-registry/src/instructions/bond.rs:198-203 | every balance afterwards, also when the destination is the vault; the tier is the highest whose threshold the remaining bond reaches and covers the capital, the request is consumed, and nothing else changes |
| Escrow.SlashExactly | programs/agent-registry/src/instructions/bond.rs:249-306 | the authority can slash any positive part of any bond at any time, and nobody else can: an if and only if |
| Escrow.SlashEffect | programs/agent-registry/src/instructions/bond.rs:256-310 | every balance after a slash under all aliasing: 70% rounded down to the traders, the rest to the buyback; bond less the amount, the tier the highest the rest reaches, one more slash counted up to 65535, and nothing else changes |
| Escrow.CutsOfASplit | programs/agent-registry/src/instructions/bond.rs:256-263 | for any amounts, the sum of the cuts is at most the cut of the sum and at least that less nine tenths of a unit per piece |
| Escrow.SplittingASlash | programs/agent-registry/src/constants.rs:54-56 | slashing at once or in pieces always succeeds alike, leaves the same bond, and pays the traders the same up to nine tenths of a unit per piece, whichever accounts coincide |
| Tiers.TierReached | programs/agent-registry/src/state.rs:83-92 | on an increasing table the tier is at least k exactly when the bond reaches threshold k |
| Tiers.CoverageThreshold | programs/agent-registry/src/state.rs:94-101 | a bond's ceiling covers some capital exactly when the bond reaches the threshold of the least covering tier |
| Tiers.ComputeTier | programs/agent-registry/src/state.rs:84-92 | the loop computes the highest tier whose threshold the bond reaches |
| Tokens.TransferConserves | programs/agent-registry/src/instructions/bond.rs:47-57 | a transfer, self-transfers included, conserves the supply of every mint |
| Tokens.TransferSucceeds | programs/agent-registry/src/instructions/bond.rs:185-196 | with a supply that fits 64 bits a transfer between accounts of one mint fails only for want of funds |
| Accounting.AumAgreement | programs/agent-registry/src/state.rs:191-196 | on any run the listings' sum minus the builder's total lies between zero and the amount by which withdrawals overdrew their listings |
| Accounting.SumStaysExact | programs/agent-registry/src/instructions/aum.rs:104-115 | where total and sum agree, a withdrawal keeps them equal if and only if it stays within its listing's capital or that listing holds it all |
| Accounting.ExactWithoutOverdrafts | programs/agent-registry/src/instructions/aum.rs:51-90 | on runs without overdrafts total equals sum, and a deposit succeeds if and only if its documented guards hold: the listing's own addition never overflows |
| Accounting.NoAumBeforeTimelockedVault | programs/agent-registry/src/instructions/aum.rs:32-44 | any recorded capital, of a builder or a listing, implies an earlier queued and executed vault authority, queued at least the delay of that moment before now, which is no less than the initial delay |
| Coverage.ShortfallGrowsExactly | programs/agent-registry/src/instructions/bond.rs:299-305 | from any valid state a transaction makes capital above the ceiling grow if and only if it is a slash leaving, or a stake reaching, less than the threshold of the least tier that covers the capital within the ceiling, or an executed update whose announced ceiling for the cached tier lies below that capital; from a covered state it stays covered exactly otherwise |
| Coverage.WithinThroughoutExactly | programs/agent-registry/src/state.rs:191-196 | on any run a builder's capital is within its ceiling at every point if and only if no transaction is one of those three |
| Coverage.ShortfallStep | programs/agent-registry/src/instructions/bond.rs:61-65 | the cached tier never claims more than the bond reaches until tiers are replaced, any change of the bond restores that, and with it a stake never uncovers capital |
| Coverage.ShortfallNeverGrows | programs/agent-registry/src/instructions/aum.rs:64-77 | on any stretch without slash or tier update that starts with an honest cache, uncovered capital never grows |
| Coverage.CoveredOnCalmRuns | programs/agent-registry/src/state.rs:76-77 | on runs without slash or tier update capital is at most the ceiling of the cached tier and of the tier the bond reaches |
| Unbonding.WithdrawalConsumesRequest | programs/agent-registry/src/instructions/bond.rs:201-203 | every withdrawal has its own earlier request, at least the period before, with no request, cancellation or withdrawal in between |
| Unbonding.WithdrawalSpacing | programs/agent-registry/src/instructions/bond.rs:154-167 | with the period at least p at each withdrawal, the k-th comes no earlier than k times p after registration |
| Unbonding.UnbondingFreeze | programs/agent-registry/src/instructions/bond.rs:92-105 | while a builder stays unbonding its capital never grows, the set of its listings and its counter are fixed, and its bond falls by exactly what the authority slashes |
| Lifecycle.AlwaysIndexed | programs/agent-registry/src/instructions/listing.rs:21-28 | a builder's listings are exactly the indices below its counter |
| Lifecycle.SubmitExactly | programs/agent-registry/src/instructions/listing.rs:36-77 | in every reachable state a submission succeeds if and only if tier, unbonding and counter allow it; its address is always free |
| Lifecycle.ApproveExactly | programs/agent-registry/src/instructions/listing.rs:103-124 | approval succeeds exactly for the authority on a vetted listing with terms inside the guardrails, stores those terms or the launch defaults, and changes nothing else |
| Lifecycle.AlwaysWellFormed | programs/agent-registry/src/state.rs:38-61 | in every reachable state a listing in vetting has no capital and no fees, a live or paused one has fees inside the guardrails, a delisted one has no capital |
| Lifecycle.ApprovalAndDelistingAreFinal | programs/agent-registry/src/instructions/listing.rs:189-203 | over any stretch of a run approved terms never change, and a delisted listing stays delisted, empty and with its key |
| Lifecycle.ProcessListingStep | programs/agent-registry/src/instructions/listing.rs:163-187 | the moves one transaction can make on one listing: status graph, terms written once, capital only while live |
| Lifecycle.StatusMovers | programs/agent-registry/src/instructions/listing.rs:152-160 | who can cause each status change; the guardian only pauses |
| WindDown.WindDownAlwaysPossible | programs/agent-registry/src/instructions/aum.rs:101-124 | from every reachable state with a vault authority, at most twice the listings plus two transactions by builder and vault alone, within one unbonding period, all succeed and end with no capital, no bond, every listing delisted and the whole bond added to the destination (unless that is the vault itself) |
| WindDown.Drain | programs/agent-registry/src/instructions/aum.rs:104-115 | the vault can return the capital of every listing, whatever its status, one transaction each |
| Deposits.BatchExactly | programs/agent-registry/src/instructions/aum.rs:64-90 | a batch of deposits is accepted if and only if its sums fit every ceiling and counter, and then adds exactly those sums |
| Deposits.DepositsCommute | programs/agent-registry/src/instructions/aum.rs:51-90 | every order of a batch meets the same fate and leaves the same state |
| Deposits.DepositRunsReorder | programs/agent-registry/src/instructions/aum.rs:46-50 | a run of deposits that all take effect can be reordered at will, with the same final state |
| Effects.SetUpExactly | programs/agent-registry/src/instructions/config.rs:28-53 | set-up takes exactly the strictly increasing tables with a positive period, 14 days when none is given |
| Effects.SetPeriodExactly | programs/agent-registry/src/instructions/config.rs:68-83 | the authority, and nobody else, sets any period from 1 second to 90 days; it is stored and nothing else changes |
| Effects.InitializeGovernanceExactly | programs/agent-registry/src/instructions/governance.rs:57-86 | governance is created exactly once, by the authority, with a guardian of its own and a delay between the build's floor and 30 days, 72 hours when none is given |
| Effects.SetGuardianExactly | programs/agent-registry/src/instructions/governance.rs:99-117 | the authority replaces the guardian by any key but the default and its own; only that key changes |
| Effects.SetDelayExactly | programs/agent-registry/src/instructions/governance.rs:119-139 | the authority sets exactly the delays above the present one and up to 30 days; only the delay changes |
| Effects.QueueTransferExactly | programs/agent-registry/src/instructions/governance.rs:200-213 | queueing a transfer succeeds if and only if governance exists, that one slot is free, the authority signs, the key is not the default and the eta fits 64 bits; the slot then holds the announced change and nothing else moves |
| Effects.QueueVaultExactly | programs/agent-registry/src/instructions/governance.rs:218-231 | the same for a vault authority, whose key may be any, the default included |
| Effects.QueueTiersExactly | programs/agent-registry/src/instructions/governance.rs:235-253 | the same for tier tables, which must both increase strictly |
| Effects.ExecuteExactly | programs/agent-registry/src/instructions/governance.rs:316-349 | execution succeeds if and only if authority, kind, refund account and eta allow it; the setting of that kind takes the announced value, the slot is freed, and no other setting or slot changes |
| Effects.VetoExactly | programs/agent-registry/src/instructions/governance.rs:351-364 | a veto succeeds if and only if guardian or authority signs for a slot holding its own kind with the right refund account; only that slot changes |
| Effects.VetoUndoesQueue | programs/agent-registry/src/instructions/governance.rs:351-364 | a guardian's veto of what was just announced in its own slot succeeds and restores all there was before |
| Effects.RegisterExactly | programs/agent-registry/src/instructions/builder.rs:43-57 | anyone not registered registers, with the agent mint; record and vault start empty |
| Effects.RequestUnbondExactly | programs/agent-registry/src/instructions/bond.rs:89-105 | a request succeeds exactly when none is in flight and stamps the clock; nothing else changes |
| Effects.CancelUnbondExactly | programs/agent-registry/src/instructions/bond.rs:107-114 | a cancellation succeeds exactly when a request is in flight and clears the stamp; nothing else changes |
| Effects.CancelUndoesRequest | programs/agent-registry/src/instructions/bond.rs:92-114 | a request cancelled at any later time leaves no trace but the clock |
| Effects.SubmitExactly | programs/agent-registry/src/instructions/listing.rs:36-77 | exactly when a submission succeeds; the listing has the submitted key, market and hash, in vetting with zero fees, at the counter's index, the counter advances, nothing else changes |
| Effects.PauseExactly | programs/agent-registry/src/instructions/listing.rs:163-174 | exactly builder or authority pause a live listing; only its status changes |
| Effects.ResumeExactly | programs/agent-registry/src/instructions/listing.rs:176-187 | exactly builder or authority resume a paused listing; only its status changes |
| Effects.DelistExactly | programs/agent-registry/src/instructions/listing.rs:189-205 | exactly builder or authority delist an empty listing that is not delisted yet; only its status changes |
| Effects.GuardianPauseExactly | programs/agent-registry/src/instructions/governance.rs:386-416 | exactly the guardian pauses a live listing this way, of any builder; only its status changes |
| Effects.ResumeUndoesPause | programs/agent-registry/src/instructions/governance.rs:392-397 | after a pause by whomever, builder and authority, and no one else, can resume the listing, which is then as it was before |
| Effects.RotateExactly | programs/agent-registry/src/instructions/listing.rs:227-244 | exactly the builder rotates the key of a listing that is not delisted; the listing has the new key and nothing else changes |
| Effects.KeyIsLastInstalled | programs/agent-registry/src/instructions/listing.rs:206-244 | in every reachable state the key of a listing is the one its builder installed last: by its submission or a rotation, with no successful rotation since, so a replaced key is gone until the builder brings it back |
| Effects.ReportWithdrawalExactly | programs/agent-registry/src/instructions/aum.rs:101-124 | the vault authority, once set, can report any positive withdrawal whatever the statuses; total and listing each fall by the amount or to zero, the vault count by one exactly if a vault closes and there is one, and nothing else changes |
| Effects.ReportDepositExactly | programs/agent-registry/src/instructions/aum.rs:46-99 | exactly when a deposit is recorded, in terms of the ceiling of the cached tier and the widths of the counters, and all it changes |
| Effects.WithdrawalUndoesDeposit | programs/agent-registry/src/instructions/aum.rs:101-124 | returning a recorded deposit at any later time always succeeds and leaves no trace but the clock |
| Effects.WithdrawalsAddUp | programs/agent-registry/src/instructions/aum.rs:104-115 | two withdrawals from a listing succeed like one of their sum and leave the same state, overdrafts included |
| Errors.ErrorsAreTrue | programs/agent-registry/src/errors.rs:3-76 | in every reachable state any instruction by any signer fails if and only if one of its documented reasons holds, and the error reported is a reason that holds and that precedes every other one that does, in one order of the checks; overflow, missing funds and stale validation are no reasons where the program cannot meet them |
| Errors.AdminReasonFails | programs/agent-registry/src/instructions/governance.rs:200-364 | any reason given for an administrative instruction makes it fail, with that error or one checked earlier |
| Errors.WithdrawErrorIsReason | programs/agent-registry/src/instructions/bond.rs:148-207 | a refused bond withdrawal reports a true reason, coverage read as a threshold on what stays; neither the vault nor its balance is ever one |
| Witnesses.YearLongPeriod | programs/agent-registry/src/instructions/config.rs:41-45 | a genesis state with an unbonding period of a year |
| Witnesses.MisfiledChange | programs/agent-registry/src/instructions/governance.rs:200-213 | a run after which the guardian cannot veto a pending change |
| Witnesses.RotatedGuardian | programs/agent-registry/src/instructions/governance.rs:99-117 | a run on which the guardian in office at the announcement is replaced, can no longer veto, and the transfer executes |
| Witnesses.GuardianCrowned | programs/agent-registry/src/instructions/governance.rs:330-333 | a run after which one key is guardian and authority |
| Witnesses.TotalIsNotAlwaysTheSum | programs/agent-registry/src/instructions/aum.rs:108-112 | a run after which the total is 20 and the listings hold 40 |
| Witnesses.SlashUncoversCapital | programs/agent-registry/src/instructions/bond.rs:299-305 | a run after which 80 of capital stand above the ceiling |
| Witnesses.UpdateUncoversCapital | programs/agent-registry/src/instructions/governance.rs:338-345 | a run on which an executed tier update leaves 30 of 80 capital above the ceiling |
| Witnesses.StakeUncoversCapital | programs/agent-registry/src/instructions/bond.rs:61-65 | a run on which an update uncovers nothing and the builder's next stake uncovers all 80 |
| Registry.Program.InitializeConfig | programs/agent-registry/src/instructions/config.rs:28-53 | set-up succeeds exactly on a valid table and period (14 days by default) and leaves a genesis state |
| Registry.Program.ExecuteChange | programs/agent-registry/src/instructions/governance.rs:316-349 | although tiers are written before they are validated, success has exactly the specified effect, slot closed, and every failure the specified error |
| Registry.Program.StakeBond | programs/agent-registry/src/instructions/bond.rs:40-75 | transfer, checked sum and tier loop together have the specified effect and errors |
| Registry.Program.WithdrawBond | programs/agent-registry/src/instructions/bond.rs:148-207 | period, coverage and funds are checked in the source's order; bond, tier, clock and balances end as specified |
| Registry.Program.SplitSlash | programs/agent-registry/src/instructions/bond.rs:256-263 | the 128-bit product and the cast to 64 bits lose nothing, and the two cuts add up to the amount |
| Registry.Program.SlashBond | programs/agent-registry/src/instructions/bond.rs:249-318 | both conditional payments, the bond, the tier and the saturating slash count end as specified |
| Registry.Program.SubmitListing | programs/agent-registry/src/instructions/listing.rs:36-77 | the listing is created at the counter's index and the counter advances, both or neither |
| Registry.Program.RecordDeposit | programs/agent-registry/src/instructions/aum.rs:51-99 | builder total, listing capital and vault count move together or not at all, with the source's errors |
| Registry.Program.Submit | programs/agent-registry/src/instructions/governance.rs:338-345 | a transaction takes effect whole or changes only the clock, whatever a failing handler left behind |
| Registry.Program.SubmitAll | programs/agent-registry/src/lib.rs:24-197 | any list of transactions leaves the program in the state the run theorems speak of, with the verdict of each |

## Left out

- Serialisation, discriminators, address derivation, bump seeds, rent, lamports and space: addresses are map keys, and the rent refund account only has to equal the recorded payer.
- The payer's signature on queue instructions: the payer is a parameter, the authority is the modelled signer.
- The address fields that repeat an account's own key (`Builder.authority`, `AgentListing.builder`, `AgentListing.index`): they are the map keys. The six fee fields of a listing are one record.
- The token program beyond transfers and opening accounts: no minting, burning, freezing or closing, so the supply is fixed below 2^64; the mint account itself.
- Which error is reported when several account checks fail at once follows the framework's order (missing accounts, accounts already in use, constraints in field order) but framework errors are merged into three.
- `reason_hash` and log messages: opaque and without effect.
- The vault program: it does not exist in the repository; the vault authority is a signer that may report any amounts.
- Deposits.DepositRunsReorder: all deposits carry one clock reading, because nothing in a deposit depends on the clock.
- `app/bond.rs` and `app/governance.rs`: copies outside the crate. The TypeScript tests, scripts and migrations.
