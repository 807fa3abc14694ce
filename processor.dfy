/** The instruction dispatcher and the life of one subscription account
    under any sequence of transactions. */
module Processor {
  import opened Types
  import opened Errors
  import opened Subscription
  import opened Creation
  import opened Payment
  import opened Withdrawal

  datatype SubscriptionInstruction =
    | WithdrawFunds(withdraw_args: WithdrawFundsArgs)
    | CreateSubscription(create_args: CreateSubscriptionArgs)
    | PaySubscription(pay_args: PaySubscriptionArgs)

  /** What a transaction supplies besides its instruction: whether the
      allocator can fund and allocate a new account, the token accounts of a
      payment and of a withdrawal, the token program's behaviour, and the
      clock. */
  datatype Invocation = Invocation(
    allocationOk: bool,
    pay: PayAccounts,
    withdraw: WithdrawAccounts,
    token: TokenProgram,
    now: i64)

  datatype Transaction = Transaction(ix: SubscriptionInstruction, env: Invocation)

  function StateOf(c: Result<Committed>): Result<SubscriptionState>
  {
    match c
    case Ok(committed) => Ok(committed.state)
    case Err(e) => Err(e)
  }

  /** `w` with `amount` added at position `i`: the sum grows by `amount`. */
  lemma {:induction false} SumAfterIncrement(w: seq<u64>, i: nat, amount: u64)
    requires i < |w| && w[i] + amount <= U64_MAX
    ensures Sum(w[i := w[i] + amount]) == Sum(w) + amount
  {
    if i > 0 {
      SumAfterIncrement(w[1..], i - 1, amount);
      assert w[i := w[i] + amount][1..] == w[1..][i - 1 := w[i] + amount];
    } else {
      assert w[i := w[i] + amount][1..] == w[1..];
    }
  }

  /** Routes the instruction to its handler and returns the record the
      account holds afterwards. `stored` is the account's current record,
      None while the account does not exist: allocating an account that is
      already in use fails, and an account this program does not own yet
      fails the ownership check of payment and withdrawal. */
  function ProcessInstruction(
    programId: Pubkey, subscriptionKey: Pubkey, derive: Deriver,
    stored: Option<SubscriptionState>, tx: Transaction): (r: Result<SubscriptionState>)
    ensures tx.ix.CreateSubscription? ==>
              r == Creation.CreateSubscription(programId, subscriptionKey, tx.ix.create_args, derive,
                                               tx.env.allocationOk && stored.None?)
    ensures tx.ix.CreateSubscription? && r.Ok? ==> stored.None?
    ensures !tx.ix.CreateSubscription? && stored.None? ==> r == Err(Custom(IncorrectOwner))
    // on an existing record, payment and withdrawal give exactly their
    // handler's outcome, errors included
    ensures tx.ix.PaySubscription? && stored.Some? ==>
              r == StateOf(PaySubscriptionResult(stored.value, subscriptionKey, tx.env.pay, tx.env.token, tx.env.now))
    ensures tx.ix.WithdrawFunds? && stored.Some? ==>
              r == StateOf(WithdrawFundsResult(programId, stored.value, subscriptionKey, tx.env.withdraw,
                                               tx.ix.withdraw_args, derive, tx.env.token))
    // a payment only accrues: total_paid grows by price, withdrawals stay
    ensures tx.ix.PaySubscription? && r.Ok? ==>
              stored.Some?
              && r.value.total_paid == stored.value.total_paid + stored.value.price
              && r.value.withdrawn_amounts == stored.value.withdrawn_amounts
    // a withdrawal only releases: the withdrawn total grows by the amount
    ensures tx.ix.WithdrawFunds? && r.Ok? ==>
              stored.Some?
              && r.value.total_paid == stored.value.total_paid
              && r.value.paid_until == stored.value.paid_until
              && Sum(r.value.withdrawn_amounts) == Sum(stored.value.withdrawn_amounts) + tx.ix.withdraw_args.amount
  {
    match tx.ix
    case CreateSubscription(args) =>
      Creation.CreateSubscription(programId, subscriptionKey, args, derive, tx.env.allocationOk && stored.None?)
    case PaySubscription(args) =>
      if stored.None? then Err(Custom(IncorrectOwner))
      else StateOf(PaySubscriptionResult(stored.value, subscriptionKey, tx.env.pay, tx.env.token, tx.env.now))
    case WithdrawFunds(args) =>
      if stored.None? then Err(Custom(IncorrectOwner))
      else
        var c := WithdrawFundsResult(programId, stored.value, subscriptionKey, tx.env.withdraw, args, derive, tx.env.token);
        if c.Ok? then
          var i := IndexOf(stored.value.owner_addresses, tx.env.withdraw.withdrawer).value;
          SumAfterIncrement(stored.value.withdrawn_amounts, i, args.amount);
          StateOf(c)
        else StateOf(c)
  }

  /** The account's record after one transaction: unchanged when it fails. */
  function Step(
    programId: Pubkey, subscriptionKey: Pubkey, derive: Deriver,
    stored: Option<SubscriptionState>, tx: Transaction): Option<SubscriptionState>
  {
    var r := ProcessInstruction(programId, subscriptionKey, derive, stored, tx);
    if r.Ok? then Some(r.value) else stored
  }

  /** The account's record after a sequence of transactions. */
  function Run(
    programId: Pubkey, subscriptionKey: Pubkey, derive: Deriver,
    stored: Option<SubscriptionState>, txs: seq<Transaction>): Option<SubscriptionState>
    decreases |txs|
  {
    if |txs| == 0 then stored
    else Run(programId, subscriptionKey, derive, Step(programId, subscriptionKey, derive, stored, txs[0]), txs[1..])
  }

  /** The account holds no record, or a valid one. */
  predicate Healthy(stored: Option<SubscriptionState>)
  {
    stored.None? || Valid(stored.value)
  }

  lemma StepKeepsHealthy(
    programId: Pubkey, subscriptionKey: Pubkey, derive: Deriver,
    stored: Option<SubscriptionState>, tx: Transaction)
    requires Healthy(stored)
    ensures Healthy(Step(programId, subscriptionKey, derive, stored, tx))
  {
    var r := ProcessInstruction(programId, subscriptionKey, derive, stored, tx);
    if r.Ok? {
      match tx.ix
      case CreateSubscription(args) =>
      case PaySubscription(args) =>
        PayPreservesValid(stored.value, subscriptionKey, tx.env.pay, tx.env.token, tx.env.now);
      case WithdrawFunds(args) =>
        WithdrawPreservesValid(programId, stored.value, subscriptionKey, tx.env.withdraw, args, derive, tx.env.token);
    }
  }

  /** Every record any sequence of transactions leaves behind is valid:
      aligned lists within capacity, and no owner above their entitlement. */
  lemma {:induction false} RunKeepsHealthy(
    programId: Pubkey, subscriptionKey: Pubkey, derive: Deriver,
    stored: Option<SubscriptionState>, txs: seq<Transaction>)
    requires Healthy(stored)
    ensures Healthy(Run(programId, subscriptionKey, derive, stored, txs))
    decreases |txs|
  {
    if |txs| > 0 {
      StepKeepsHealthy(programId, subscriptionKey, derive, stored, txs[0]);
      RunKeepsHealthy(programId, subscriptionKey, derive,
                      Step(programId, subscriptionKey, derive, stored, txs[0]), txs[1..]);
    }
  }

  /** `b` is a later version of record `a`: the terms agreed at creation
      are the same, and total_paid and every withdrawn amount are at least
      as large. */
  predicate Progressed(a: SubscriptionState, b: SubscriptionState)
  {
    b.token_mint == a.token_mint
    && b.owner_addresses == a.owner_addresses
    && b.owner_shares == a.owner_shares
    && b.price == a.price
    && b.period_duration == a.period_duration
    && a.total_paid <= b.total_paid
    && |b.withdrawn_amounts| == |a.withdrawn_amounts|
    && (forall i :: 0 <= i < |a.withdrawn_amounts| ==> a.withdrawn_amounts[i] <= b.withdrawn_amounts[i])
    && (a.period_duration <= I64_MAX ==> a.paid_until <= b.paid_until)
  }

  lemma StepProgresses(
    programId: Pubkey, subscriptionKey: Pubkey, derive: Deriver,
    s: SubscriptionState, tx: Transaction)
    ensures var next := Step(programId, subscriptionKey, derive, Some(s), tx);
            next.Some? && Progressed(s, next.value)
  {
    var r := ProcessInstruction(programId, subscriptionKey, derive, Some(s), tx);
    if r.Ok? && tx.ix.PaySubscription? && s.period_duration <= I64_MAX {
      PaidUntilNeverDecreases(s, subscriptionKey, tx.env.pay, tx.env.token, tx.env.now);
    }
  }

  /** Once created, a record is never removed nor re-created, its terms
      never change, and total_paid, every withdrawn amount and (for a period
      that fits an i64) paid_until never decrease. */
  lemma {:induction false} RunProgresses(
    programId: Pubkey, subscriptionKey: Pubkey, derive: Deriver,
    s: SubscriptionState, txs: seq<Transaction>)
    ensures var last := Run(programId, subscriptionKey, derive, Some(s), txs);
            last.Some? && Progressed(s, last.value)
    decreases |txs|
  {
    if |txs| > 0 {
      StepProgresses(programId, subscriptionKey, derive, s, txs[0]);
      var next := Step(programId, subscriptionKey, derive, Some(s), txs[0]).value;
      RunProgresses(programId, subscriptionKey, derive, next, txs[1..]);
    }
  }
}
