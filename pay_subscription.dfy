/** The PaySubscription handler: escrow-safety guards, one transfer of
    `price` into escrow, then `total_paid += price` and the extension of
    `paid_until` by one period. */
module Payment {
  import opened Types
  import opened Errors
  import opened Subscription

  datatype PaySubscriptionArgs = PaySubscriptionArgs(resource: Pubkey)

  /** The token accounts of a payment: the payer's source and the escrow
      ("subscription funds") destination, with their addresses. */
  datatype PayAccounts = PayAccounts(
    payer_token: Pubkey,
    payer_token_account: TokenAccount,
    funds_token: Pubkey,
    funds_token_account: TokenAccount)

  /** The new `paid_until`: restarted from `now` when the subscription has
      lapsed, extended from its current end otherwise; None when the i64
      addition overflows. */
  function ExtendPaidUntil(paid_until: i64, now: i64, period_duration: u64): Option<i64>
  {
    var base := if paid_until < now then now else paid_until;
    var sum := base + AsI64(period_duration);
    if I64_MIN <= sum <= I64_MAX then Some(sum) else None
  }

  /** The transfer a payment asks for: `price` from the payer to escrow. */
  function PaymentTransfer(s: SubscriptionState, accounts: PayAccounts): TokenTransfer
  {
    TokenTransfer(accounts.payer_token, accounts.funds_token, s.price)
  }

  /** The whole effect of one payment on the record `s` stored at
      `subscriptionKey`, at time `now`. */
  function PaySubscriptionResult(
    s: SubscriptionState, subscriptionKey: Pubkey, accounts: PayAccounts,
    token: TokenProgram, now: i64): (r: Result<Committed>)
    // the escrow guards, in order
    ensures accounts.funds_token_account.owner != subscriptionKey ==>
              r == Err(Custom(FundsTokenAccountOwnerMismatch))
    ensures accounts.funds_token_account.owner == subscriptionKey
            && accounts.funds_token_account.delegate.Some? ==>
              r == Err(Custom(DelegateShouldBeNone))
    ensures accounts.funds_token_account.owner == subscriptionKey
            && accounts.funds_token_account.delegate.None?
            && accounts.funds_token_account.close_authority.Some? ==>
              r == Err(Custom(CloseAuthorityShouldBeNone))
    // the balance guard is vacuous
    ensures r != Err(Custom(BalanceTooLow))
    // success needs a safe escrow, an accepted transfer and no overflow
    ensures r.Ok? <==>
              accounts.funds_token_account.owner == subscriptionKey
              && accounts.funds_token_account.delegate.None?
              && accounts.funds_token_account.close_authority.None?
              && token(PaymentTransfer(s, accounts))
              && s.total_paid + s.price <= U64_MAX
              && ExtendPaidUntil(s.paid_until, now, s.period_duration).Some?
    // exactly `price` moves from payer to escrow and is added to total_paid
    ensures r.Ok? ==>
              r.value.transfer == TokenTransfer(accounts.payer_token, accounts.funds_token, s.price)
              && r.value.state.total_paid == s.total_paid + s.price
    // the two-branch extension of paid_until
    ensures r.Ok? && s.paid_until < now ==>
              r.value.state.paid_until == now + AsI64(s.period_duration)
    ensures r.Ok? && s.paid_until >= now ==>
              r.value.state.paid_until == s.paid_until + AsI64(s.period_duration)
    // nothing else changes
    ensures r.Ok? ==>
              r.value.state == s.(total_paid := r.value.state.total_paid, paid_until := r.value.state.paid_until)
  {
    var escrow := accounts.funds_token_account;
    if escrow.owner != subscriptionKey then Err(Custom(FundsTokenAccountOwnerMismatch))
    else if escrow.delegate.Some? then Err(Custom(DelegateShouldBeNone))
    else if escrow.close_authority.Some? then Err(Custom(CloseAuthorityShouldBeNone))
    else if SaturatingSub(accounts.payer_token_account.amount, s.price) < 0 then Err(Custom(BalanceTooLow))
    else if !token(PaymentTransfer(s, accounts)) then Err(Custom(TokenTransferFailed))
    else if s.total_paid + s.price > U64_MAX then Err(Panic)
    else match ExtendPaidUntil(s.paid_until, now, s.period_duration)
      case None => Err(Panic)
      case Some(until) =>
        Ok(Committed(s.(total_paid := s.total_paid + s.price, paid_until := until),
                     PaymentTransfer(s, accounts)))
  }

  /** A payment never moves `paid_until` back and always covers one period
      from now, as long as the period fits in an i64. */
  lemma PaidUntilNeverDecreases(
    s: SubscriptionState, subscriptionKey: Pubkey, accounts: PayAccounts, token: TokenProgram, now: i64)
    requires s.period_duration <= I64_MAX
    requires PaySubscriptionResult(s, subscriptionKey, accounts, token, now).Ok?
    ensures var t := PaySubscriptionResult(s, subscriptionKey, accounts, token, now).value.state;
            t.paid_until >= s.paid_until && t.paid_until >= now + s.period_duration
            && t.total_paid >= s.total_paid
  {
  }

  /** A period above i64::MAX wraps to a negative duration: paying an
      active subscription with period u64::MAX shortens it by one second. */
  lemma HugePeriodShortensSubscription(s: SubscriptionState, key: Pubkey, accounts: PayAccounts)
    requires accounts.funds_token_account == TokenAccount(key, 0, None, None)
    requires s.period_duration == U64_MAX && s.paid_until == 100 && s.total_paid == 0
    ensures var r := PaySubscriptionResult(s, key, accounts, _ => true, 50);
            r.Ok? && r.value.state.paid_until == s.paid_until - 1
  {
    assert AsI64(s.period_duration) == -1;
  }

  /** A payment keeps the record invariant: the lists are untouched and
      every entitlement can only grow with total_paid. */
  lemma PayPreservesValid(
    s: SubscriptionState, subscriptionKey: Pubkey, accounts: PayAccounts, token: TokenProgram, now: i64)
    requires Valid(s)
    requires PaySubscriptionResult(s, subscriptionKey, accounts, token, now).Ok?
    ensures Valid(PaySubscriptionResult(s, subscriptionKey, accounts, token, now).value.state)
  {
    var t := PaySubscriptionResult(s, subscriptionKey, accounts, token, now).value.state;
    forall i | 0 <= i < |t.withdrawn_amounts|
      ensures t.withdrawn_amounts[i] <= Entitlement(t.total_paid, t.owner_shares[i])
    {
      EntitlementMonotonic(s.total_paid, t.total_paid, s.owner_shares[i]);
    }
  }

  /** One payment attempt: the accounts, the token program's behaviour and
      the clock at that moment. */
  datatype PayCall = PayCall(accounts: PayAccounts, token: TokenProgram, now: i64)

  /** Applies payment attempts in order; a failed attempt leaves the record
      as it was. Returns the final record and the number of attempts that
      succeeded. */
  function PayEach(s: SubscriptionState, subscriptionKey: Pubkey, calls: seq<PayCall>): (SubscriptionState, nat)
    decreases |calls|
  {
    if |calls| == 0 then (s, 0)
    else
      var r := PaySubscriptionResult(s, subscriptionKey, calls[0].accounts, calls[0].token, calls[0].now);
      var next := if r.Ok? then r.value.state else s;
      var (last, n) := PayEach(next, subscriptionKey, calls[1..]);
      (last, n + if r.Ok? then 1 else 0)
  }

  /** Payments are not idempotent: after any sequence of attempts,
      total_paid has grown by exactly `price` per successful payment, the
      price and period are unchanged, and (for a period that fits an i64)
      `paid_until` has not moved back. */
  lemma {:induction false} PayEachAccrues(s: SubscriptionState, subscriptionKey: Pubkey, calls: seq<PayCall>)
    ensures var (last, n) := PayEach(s, subscriptionKey, calls);
            last.total_paid == s.total_paid + n * s.price
            && last.price == s.price && last.period_duration == s.period_duration
            && (s.period_duration <= I64_MAX ==> last.paid_until >= s.paid_until)
            && last.withdrawn_amounts == s.withdrawn_amounts
            && n <= |calls|
    decreases |calls|
  {
    if |calls| > 0 {
      var r := PaySubscriptionResult(s, subscriptionKey, calls[0].accounts, calls[0].token, calls[0].now);
      var next := if r.Ok? then r.value.state else s;
      if r.Ok? && s.period_duration <= I64_MAX {
        PaidUntilNeverDecreases(s, subscriptionKey, calls[0].accounts, calls[0].token, calls[0].now);
      }
      PayEachAccrues(next, subscriptionKey, calls[1..]);
      var (last, m) := PayEach(next, subscriptionKey, calls[1..]);
      assert PayEach(s, subscriptionKey, calls) == (last, m + if r.Ok? then 1 else 0);
      if r.Ok? {
        assert last.total_paid == s.total_paid + s.price + m * s.price;
        assert (m + 1) * s.price == m * s.price + s.price;
      }
    }
  }

  /** The handler as it runs: load the record, check the escrow, transfer,
      add the funds, extend the period, write the record back. A failure at
      any step writes nothing. */
  method PaySubscription(
    account: SubscriptionAccount, args: PaySubscriptionArgs, accounts: PayAccounts,
    token: TokenProgram, now: i64) returns (r: Result<()>)
    modifies account
    ensures var expected := PaySubscriptionResult(old(account.data), account.key, accounts, token, now);
            (expected.Ok? ==> r == Ok(()) && account.data == expected.value.state)
            && (expected.Err? ==> r == Err(expected.error) && account.data == old(account.data))
  {
    var subscription := new SubscriptionData.FromAccountInfo(account.data);

    var escrow := accounts.funds_token_account;
    if escrow.owner != account.key {
      return Err(Custom(FundsTokenAccountOwnerMismatch));
    }
    if escrow.delegate != None {
      return Err(Custom(DelegateShouldBeNone));
    }
    if escrow.close_authority != None {
      return Err(Custom(CloseAuthorityShouldBeNone));
    }

    if SaturatingSub(accounts.payer_token_account.amount, subscription.price) < 0 {
      return Err(Custom(BalanceTooLow));
    }

    var transfer := TokenTransfer(accounts.payer_token, accounts.funds_token, subscription.price);
    if !token(transfer) {
      return Err(Custom(TokenTransferFailed));
    }

    if subscription.total_paid + subscription.price > U64_MAX {
      return Err(Panic);
    }
    subscription.AddFunds(subscription.price);

    var until: int;
    if subscription.paid_until < now {
      until := now + AsI64(subscription.period_duration);
    } else {
      until := subscription.paid_until + AsI64(subscription.period_duration);
    }
    if until < I64_MIN || until > I64_MAX {
      return Err(Panic);
    }
    subscription.paid_until := until;

    account.data := subscription.State();
    return Ok(());
  }
}
