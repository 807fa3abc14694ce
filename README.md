# Subscription escrow: a Dafny model

This project models the core of a Solana program for subscriptions with revenue sharing. A resource owner, or several
co-owners, creates a subscription record at an address derived from the resource. Payers deposit a fixed `price` into
an escrow token account. Each payment sets `paid_until` to one period past the later of `now` and the current `paid_until` (for a period that
fits an `i64`). Each co-owner may withdraw up to their
percentage share of everything ever paid in. As written, creation accepts up to four co-owners. Five are accepted once
the size constant is repaired (see Findings).

The model covers the record (`SubscriptionData`) and its three transitions:

- `create_subscription` checks the derived address and the owner count, then writes the initial record. It is pure, so
  it is modelled as a function that returns the new record or an error.
- `pay_subscription` checks the escrow, transfers `price`, adds the funds and extends the period. It is imperative: a
  method changes a loaded copy of the record and writes it back. Beside it, a function states the same effect, and the
  properties are proved about that function.
- `withdraw_funds` checks the escrow, the derivation and the mint. It finds the owner with a linear search. It does
  not clamp the amount: a request above what is left of the owner's entitlement is rejected with
  `WithdrawalOverMaxAllowed`. Otherwise it transfers the amount and bumps one withdrawn amount. It is modelled as a
  method plus a function, like payment.
- `process_instruction` routes each instruction to its handler. `Processor.Run` runs any sequence of transactions
  against one account.

Modules follow the source files:

- `Subscription` is `src/processor.rs`: the record, `add_funds`, the size constants, the entitlement and the record
  invariant.
- `Creation` is `src/processor/create_subscription.rs`.
- `Payment` is `src/processor/pay_subscription.rs`.
- `Withdrawal` is `src/processor/withdraw_funds.rs`.
- `Processor` holds the dispatcher from `src/processor.rs`. It is a module of its own because it imports the three
  handler modules.
- `Errors` holds the error variants of `src/errors.rs` that the handlers raise.
- `Types` holds the machine integers, addresses and token-account views.
- `Scenarios` replays the two end-to-end tests of `tests/lib.rs`.

Foreign code becomes parameters:

- Address derivation (`find_program_address`, `assert_derivation`) is a function parameter `derive` of type `Deriver`.
  Because it is a function, it is deterministic.
- The token program is an oracle, `TokenTransfer -> bool`. A refused transfer aborts the whole call. This matters
  because a Solana transaction is all-or-nothing.
- The account allocator is a boolean outcome.
- The clock is the input `now`.

Arithmetic is modelled as follows:

- Integer widths are subset types `u8`, `u64` and `i64`.
- A plain `+` or `-` that would overflow is modelled as the abort `Panic`, which is what a build with overflow checks
  does. An `unwrap` of nothing is modelled as `Panic` too.
- The cast `period_duration as i64` keeps the bit pattern (`AsI64`), so a value above `i64::MAX` becomes negative.
- The source computes the entitlement in `f32`. The model uses integer floor division instead:
  `min(total_paid * share / 100, u64::MAX)`. The cap reproduces the saturating `as u64` conversion.

The record invariant is `Subscription.Valid`. It requires three lists of the same length, at most 5 owners, and
`withdrawn[i] <= Entitlement(total_paid, share[i])` for every owner. `Processor.RunKeepsHealthy` proves that every
sequence of transactions keeps it. `Processor.RunProgresses` proves that once a record exists, it is never re-created and
its terms never change. The same lemma proves that `total_paid` and each withdrawn amount never decrease, and neither
does `paid_until` when the period fits in an `i64`.

Three behaviours of the code look unintended. The model keeps them as written:

- `pay_subscription` does not check that the subscription address is derived from `args.resource`. That check is
  commented out in the source, so the model has no such check either.
- The balance guard is kept as written, a `saturating_sub(..) < 0` on an unsigned value. `PaySubscriptionResult` proves
  it never fires. When the payer's balance is too low, the token transfer is refused instead.
- Nothing bounds the sum of the shares. `OverAllocatedSharesExceedTotal` shows what follows from that.
  `AggregateWithdrawnWithinTotal` proves the aggregate bound only when the shares add up to at most 100.

## Model

| member | source | states |
|---|---|---|
| `Subscription.MaxSubscriptionSizeValue` | src/processor.rs:43-51 | The base size is 56 bytes and every record is allocated 261 bytes, whatever its owner count. |
| `Subscription.AlignedRecordFits` | src/processor.rs:53-72 | With at most 5 owners and aligned lists, the Borsh-encoded record fits `SUBSCRIPTION_SPACE` (281 bytes). A 5-owner record fills it exactly. |
| `Subscription.Entitlement` | src/processor/withdraw_funds.rs:132-142 | The entitlement is the floor of `total_paid * share / 100`, capped at `u64::MAX`: `100*r <= total*share`, and below the cap `total*share < 100*(r+1)`. It never exceeds `total_paid` for a share of at most 100. |
| `Subscription.EntitlementMonotonic` | src/processor/withdraw_funds.rs:140-142 | A larger `total_paid` never lowers an entitlement. |
| `Subscription.ScaledWithdrawnBound` | src/processor/withdraw_funds.rs:140-146 | When every owner is within their entitlement, `100 * sum(withdrawn) <= total_paid * sum(shares)`. |
| `Subscription.AggregateWithdrawnWithinTotal` | src/processor/withdraw_funds.rs:132-159 | For a valid record whose shares add up to at most 100, the owners together have withdrawn at most `total_paid`. |
| `Subscription.OverAllocatedSharesExceedTotal` | src/processor/create_subscription.rs:86-92 | No guard bounds the shares. A valid record with shares 100/100 can have withdrawn twice `total_paid`. |
| `Subscription.SubscriptionData.FromAccountInfo` | src/processor.rs:83-87 | Loading gives an in-memory record whose fields are those of the stored record. |
| `Subscription.SubscriptionData.AddFunds` | src/processor.rs:89-93 | `total_paid` becomes old `total_paid + amount`. Every other field is unchanged. No error is returned. |
| `Types.AsI64` | src/processor/pay_subscription.rs:180 | `u64 as i64` gives an `i64` that agrees with `x` modulo 2^64, the defining property of Rust's integer cast. |
| `Types.AsI64Unique` | src/processor/pay_subscription.rs:180 | No other `i64` agrees with `x` modulo 2^64, so that property fixes the cast's result. |
| `Creation.CreateSubscriptionAsWritten` | src/processor/create_subscription.rs:81-129 | The handler as written. A derivation mismatch fails with `InvalidSubscriptionAccount`. More than 5 owners then fails with `MaxOwnersExceeded`. `OwnerAddressesToSharesMismatch` is never raised. A success happens exactly when the address matches, there are at most 5 owners, allocation succeeds and the record fits the 261 allocated bytes. No guard compares the two list lengths; only the 261-byte fit, which counts every share, limits the share list. A success is the initial record. |
| `Creation.AsWrittenAcceptsMismatchedShares` | src/processor/create_subscription.rs:90-92 | One owner and an empty share list are accepted. The record's lists then differ in length. |
| `Creation.AsWrittenShareListLimitedByFit` | src/processor/create_subscription.rs:90-129 | With four owners, the as-written handler succeeds exactly when there are at most 25 shares: the only limit on the share list is the 261-byte fit. |
| `Creation.AsWrittenRejectsFiveOwners` | src/processor/create_subscription.rs:103-129 | Five owners with five shares pass the owner-count guard. Writing their 281-byte record into 261 bytes fails with `BorshIoError`. |
| `Creation.CreateSubscription` | src/processor/create_subscription.rs:81-128 | The repaired handler. The guards run in order: derivation (`InvalidSubscriptionAccount`), then more than 5 owners (`MaxOwnersExceeded`), then shares not aligned (`OwnerAddressesToSharesMismatch`), then allocation. A success happens exactly when all of them pass. It copies the mint, owners, shares, price and period, sets `n` zero withdrawn amounts and `total_paid = paid_until = 0`, is `Valid` and fits its allocation. |
| `Creation.FiveOwnersAccepted` | src/processor/create_subscription.rs:86-88 | In the repaired handler exactly 5 owners are accepted, and the record fills its allocation. |
| `Creation.RepairAgreesWithSource` | src/processor/create_subscription.rs:81-129 | With aligned lists and fewer than 5 owners, the repaired and the as-written handler give the same result. |
| `Payment.PaySubscriptionResult` | src/processor/pay_subscription.rs:98-184 | The escrow guards run in order: owner (`FundsTokenAccountOwnerMismatch`), then delegate, then close authority. `BalanceTooLow` never occurs. A success happens exactly when the guards pass, the transfer is accepted and nothing overflows. It transfers exactly `price` from payer to escrow and raises `total_paid` by `price`. `paid_until` becomes `now + period` if the subscription lapsed, and `paid_until + period` otherwise. Nothing else changes. |
| `Payment.PaidUntilNeverDecreases` | src/processor/pay_subscription.rs:175-183 | After a payment, with a period that fits in an `i64`, `paid_until' >= paid_until`, `paid_until' >= now + period` and `total_paid' >= total_paid`. |
| `Payment.HugePeriodShortensSubscription` | src/processor/pay_subscription.rs:180-182 | With period `u64::MAX`, paying an active subscription moves `paid_until` back by one second. |
| `Payment.PayPreservesValid` | src/processor/pay_subscription.rs:175 | A payment keeps the record invariant. |
| `Payment.PayEachAccrues` | src/processor/pay_subscription.rs:175-183 | After any sequence of payment attempts, `total_paid` has grown by exactly `price` per successful payment. This holds for every period. Price, period and withdrawn amounts are unchanged. When the period fits in an `i64`, `paid_until` has not decreased. |
| `Payment.PaySubscription` | src/processor/pay_subscription.rs:89-186 | The imperative handler returns the result of `PaySubscriptionResult`. On success the account holds the new record. On failure the record is left untouched. |
| `Withdrawal.IndexOf` | src/processor/withdraw_funds.rs:122-128 | The result is the first position whose address equals the withdrawer, or none exactly when the withdrawer is not an owner. |
| `Withdrawal.Position` | src/processor/withdraw_funds.rs:122-125 | The linear scan returns that same first position, or none. |
| `Withdrawal.WithdrawFundsResult` | src/processor/withdraw_funds.rs:91-160 | The guards run in order: escrow owner (`FundsTokenAccountOwnerMismatch`), derivation (`DerivedKeyInvalid`), mint (`IncorrectMint`), not an owner (`WithdrawerIsNotAnOwner`), then an amount above entitlement minus withdrawn (`WithdrawalOverMaxAllowed`). A success happens exactly when these checks pass, the owner's share and withdrawn amount exist, `withdrawn[i] + amount` is within the entitlement and the token program accepts the transfer. On success, exactly `amount` moves from escrow to the withdrawer. Only `withdrawn[i]` of the first matching owner `i` changes, by `amount`. |
| `Withdrawal.WithdrawPreservesValid` | src/processor/withdraw_funds.rs:140-159 | A withdrawal keeps the record invariant. |
| `Withdrawal.ValidRecordNeverPanics` | src/processor/withdraw_funds.rs:132-142 | On a valid record, neither `unwrap` fails and the subtraction does not underflow. |
| `Withdrawal.MissingShareAborts` | src/processor/withdraw_funds.rs:132 | On a record with an owner but no share, that owner's withdrawal aborts. |
| `Withdrawal.WithdrawFunds` | src/processor/withdraw_funds.rs:82-163 | The imperative handler returns the result of `WithdrawFundsResult`. On success the account holds the new record. On failure the record is left untouched. |
| `Processor.SumAfterIncrement` | src/processor/withdraw_funds.rs:159 | Adding `amount` at one position raises the sum of the withdrawn amounts by exactly `amount`. |
| `Processor.ProcessInstruction` | src/processor.rs:21-33 | Creation is routed to the repaired `Creation.CreateSubscription`, not to the source's handler with its two defects (see Findings). Creation never overwrites an existing record. On an existing record, payment and withdrawal return exactly their handler's result, errors included. Payment and withdrawal on a missing record fail with `IncorrectOwner`. A payment raises `total_paid` by `price` and leaves the withdrawals alone. A withdrawal leaves `total_paid` and `paid_until` alone and raises the withdrawn total by exactly `amount`. |
| `Processor.StepKeepsHealthy` | src/processor.rs:21-33 | One transaction keeps the account empty or holding a valid record. |
| `Processor.RunKeepsHealthy` | src/processor.rs:21-33 | Every sequence of transactions keeps the account empty or holding a valid record. |
| `Processor.StepProgresses` | src/processor.rs:21-33 | One transaction on an existing record keeps the record and its terms. It never lowers `total_paid` or any withdrawn amount, nor `paid_until` when the period fits in an `i64`. |
| `Processor.RunProgresses` | src/processor.rs:21-33 | The same holds for any sequence of transactions. |
| `Scenarios.SingleOwnerScenario` | tests/lib.rs:174-256 | One owner at 100 percent and price 500: creation gives `withdrawn == [0]` and `total_paid == 0`. A payment moves 500 into escrow, and a withdrawal of 500 moves 500 out to the owner. |
| `Scenarios.TwoOwnerScenario` | tests/lib.rs:259-467 | Owners at 80/20 and price 1000. Creation gives `[0, 0]`. Withdrawing 500 fails with `WithdrawalOverMaxAllowed` and changes nothing. Withdrawing 100 succeeds. A second payment gives `total_paid == 2000`, and withdrawing 300 succeeds. The final state is `withdrawn == [0, 400]`, with `paid_until` restarted and then extended. |

## Findings

| source | as written | input that shows it | evidently intended | confidence | as-written member | corrected member |
|---|---|---|---|---|---|---|
| src/processor/create_subscription.rs:90-92 | The guard compares `owner_shares.len()` with itself, so it never fires. | One owner and no shares: creation succeeds, and that owner's later withdrawal aborts on `unwrap`. | Reject when the numbers of shares and owners differ. | high; not executed | `Creation.AsWrittenAcceptsMismatchedShares` | `Creation.CreateSubscription` |
| src/processor.rs:48-51 | `MAX_SUBSCRIPTION_SIZE` = 261. The base counts three of the four 8-byte fields and none of the three 4-byte Borsh vector length prefixes. | Five owners with five shares: the record encodes to 281 bytes, so writing it into 261 bytes fails. | An allocation that holds any record with up to 5 owners: 281 bytes (`SUBSCRIPTION_SPACE`). | medium; not executed | `Creation.AsWrittenRejectsFiveOwners` | `Creation.CreateSubscription` |

`Processor` dispatches creation to the repaired `Creation.CreateSubscription`. The as-written handler is kept beside it.
`Creation.RepairAgreesWithSource` shows that the two agree on every input that avoids both defects.

## Left out

- Account parsing and runtime checks: `parse_accounts`, `assert_owned_by`, `assert_signer`, the token-program id check
  and `assert_initialized`. They are account-list glue. The one exception kept is the ownership check that payment and
  withdrawal fail on an account that holds no record yet (`IncorrectOwner`).
- Key derivation internals (SHA-256 and the off-curve bump search) and the bump used in signer seeds. Derivation is the
  parameter `derive`, and signer seeds only authorise transfers, which are an oracle here.
- The token program: balances, `Account::unpack` and the transfer CPI. A transfer is an oracle that succeeds or aborts
  the call. The handler's request (source, destination, amount) is part of the result.
- `create_or_allocate_account_raw`, rent and the system program. Allocation is a boolean outcome. It always fails on an
  account that already holds a record, because an account in use cannot be allocated again.
- The Clock sysvar. The current time is the parameter `now`.
- Borsh encoding and decoding themselves. The record is kept as its decoded value, and only the encoded size is modelled.
- `msg!` logging, `src/instruction.rs` (client-side instruction builders), the test harness and the display and decode
  impls of `src/errors.rs`.
- `Subscription.Entitlement`: the `f32` arithmetic is replaced by exact integer floor division. The source's value
  differs from the floor in both directions.
  - Below the floor, on small ordinary inputs: `53.0 / 100.0` rounds to 0.52999997, so `total_paid = 100` at share 53
    gives 52.999996, and `as u64` gives 52 instead of 53. Likewise 75 at share 84 gives 62 instead of 63. After one
    payment of 100, the source rejects a 53% owner's request for 53 with `WithdrawalOverMaxAllowed`, while
    `Withdrawal.WithdrawFundsResult` accepts it. The model thus accepts some requests that the source rejects.
  - Above the floor, from rounding the product even below 2^24: 135167 at share 97 gives 131112 against a floor of
    131111.
  - Above the floor, from rounding `total_paid as f32` to 24 significant bits: above 2^24 the excess can reach half a
    unit in the last place of `total_paid`. For example, `total_paid = 2^40 + 2^16 + 1` at share 100 becomes
    `2^40 + 2^17`, which entitles one owner to 65535 more than was ever paid in. Near `u64::MAX` the excess is up to
    about 2^39.

  The source therefore does not keep `withdrawn[i] <= floor(total_paid * share[i] / 100)`, and the model rejects some
  requests that the source accepts. The preservation of `Subscription.Valid` is proved for the integer entitlement
  only.
- `Subscription.SubscriptionData.AddFunds`: it requires that the sum fits in a `u64` instead of modelling the unchecked
  `+`. `Payment.PaySubscription` checks that bound first and aborts with `Panic`, as a build with overflow checks would.
  Release-mode wrap-around is not modelled anywhere: every overflow is an abort.
- `Payment.PaidUntilNeverDecreases` and the `paid_until` part of `Payment.PayEachAccrues`: proved only for
  `period_duration <= i64::MAX`. For larger periods the source's
  wrapping cast makes `paid_until` move back, as `Payment.HugePeriodShortensSubscription` shows.
- Concurrency: the ledger serialises the transactions that touch one account, and `Processor.Run` is that serial order.
