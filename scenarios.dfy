/** The end-to-end scenarios of the program's tests, run through the
    dispatcher: a single owner at 100 percent, and two owners at 80/20. */
module Scenarios {
  import opened Types
  import opened Errors
  import opened Subscription
  import opened Creation
  import opened Payment
  import opened Withdrawal
  import opened Processor

  /** A test address made of one repeated byte. */
  function Key(n: u8): Pubkey
  {
    seq(32, _ => n)
  }

  lemma KeysDiffer(a: u8, b: u8)
    requires a != b
    ensures Key(a) != Key(b)
  {
    assert Key(a)[0] != Key(b)[0];
  }

  const PROGRAM: Pubkey := Key(1)
  const MINT: Pubkey := Key(2)
  const RESOURCE: Pubkey := Key(3)
  const SUBSCRIPTION: Pubkey := Key(4)
  const ESCROW: Pubkey := Key(5)
  const OWNER_A: Pubkey := Key(6)
  const OWNER_B: Pubkey := Key(7)
  const PAYER_TOKEN: Pubkey := Key(8)
  const OWNER_TOKEN: Pubkey := Key(9)
  const DELEGATE: Pubkey := Key(10)

  /** A derivation that maps the test seeds to the test subscription address. */
  function Derive(seeds: seq<seq<u8>>, programId: Pubkey): Pubkey
  {
    SUBSCRIPTION
  }

  /** A fresh escrow account owned by the subscription address. */
  const ESCROW_ACCOUNT: TokenAccount := TokenAccount(SUBSCRIPTION, 0, None, None)

  /** The payer's token account, with the transfer authority approved as delegate. */
  const PAY_ACCOUNTS: PayAccounts :=
    PayAccounts(PAYER_TOKEN, TokenAccount(OWNER_A, 10_000_000, Some(DELEGATE), None), ESCROW, ESCROW_ACCOUNT)

  function Env(withdrawer: Pubkey, now: i64): Invocation
  {
    Invocation(true, PAY_ACCOUNTS, WithdrawAccounts(withdrawer, OWNER_TOKEN, ESCROW, ESCROW_ACCOUNT, MINT),
               _ => true, now)
  }

  function Create(owners: seq<Pubkey>, shares: seq<u8>, price: u64): Transaction
  {
    Transaction(SubscriptionInstruction.CreateSubscription(
                  CreateSubscriptionArgs(owners, shares, MINT, RESOURCE, price, 1000)),
                Env(OWNER_A, 0))
  }

  function Pay(now: i64): Transaction
  {
    Transaction(SubscriptionInstruction.PaySubscription(PaySubscriptionArgs(RESOURCE)), Env(OWNER_A, now))
  }

  function Withdraw(withdrawer: Pubkey, amount: u64): Transaction
  {
    Transaction(SubscriptionInstruction.WithdrawFunds(WithdrawFundsArgs(RESOURCE, amount)), Env(withdrawer, 30))
  }

  function Apply(stored: Option<SubscriptionState>, tx: Transaction): Option<SubscriptionState>
  {
    Step(PROGRAM, SUBSCRIPTION, Derive, stored, tx)
  }

  /** One owner at 100 percent, price 500: after one payment a withdrawal
      of the full 500 succeeds, and each call moves exactly 500. */
  lemma SingleOwnerScenario()
    ensures Apply(None, Create([OWNER_A], [100], 500))
            == Some(SubscriptionState(MINT, [OWNER_A], [100], [0], 0, 500, 1000, 0))
    ensures var s0 := SubscriptionState(MINT, [OWNER_A], [100], [0], 0, 500, 1000, 0);
            var r := PaySubscriptionResult(s0, SUBSCRIPTION, PAY_ACCOUNTS, _ => true, 10);
            r.Ok? && r.value.transfer == TokenTransfer(PAYER_TOKEN, ESCROW, 500)
            && r.value.state == SubscriptionState(MINT, [OWNER_A], [100], [0], 500, 500, 1000, 1010)
    ensures var s1 := SubscriptionState(MINT, [OWNER_A], [100], [0], 500, 500, 1000, 1010);
            var w := WithdrawFundsResult(PROGRAM, s1, SUBSCRIPTION, Env(OWNER_A, 30).withdraw,
                                         WithdrawFundsArgs(RESOURCE, 500), Derive, _ => true);
            w.Ok? && w.value.transfer == TokenTransfer(ESCROW, OWNER_TOKEN, 500)
            && w.value.state == SubscriptionState(MINT, [OWNER_A], [100], [500], 500, 500, 1000, 1010)
  {
    var s0 := Apply(None, Create([OWNER_A], [100], 500));
    assert s0.value.withdrawn_amounts == [0];
    assert ExtendPaidUntil(0, 10, 1000) == Some(1010);
    var s1 := SubscriptionState(MINT, [OWNER_A], [100], [0], 500, 500, 1000, 1010);
    assert IndexOf(s1.owner_addresses, OWNER_A) == Some(0);
    assert Entitlement(500, 100) == 500;
  }

  const AFTER_CREATE: SubscriptionState :=
    SubscriptionState(MINT, [OWNER_A, OWNER_B], [80, 20], [0, 0], 0, 1000, 1000, 0)
  const AFTER_FIRST_PAYMENT: SubscriptionState := AFTER_CREATE.(total_paid := 1000, paid_until := 1010)
  const AFTER_FIRST_WITHDRAWAL: SubscriptionState := AFTER_FIRST_PAYMENT.(withdrawn_amounts := [0, 100])
  const AFTER_SECOND_PAYMENT: SubscriptionState := AFTER_FIRST_WITHDRAWAL.(total_paid := 2000, paid_until := 2010)
  const AFTER_SECOND_WITHDRAWAL: SubscriptionState := AFTER_SECOND_PAYMENT.(withdrawn_amounts := [0, 400])

  /** Two owners at 80/20, price 1000. The 20 percent owner may not take
      500 of the first 1000; 100 succeeds; after a second payment the cap is
      400 and the remaining 300 succeeds. Payments 10 and 20 seconds in show
      both branches of the period extension: restart from now, then extend. */
  lemma TwoOwnerScenario()
    ensures Apply(None, Create([OWNER_A, OWNER_B], [80, 20], 1000)) == Some(AFTER_CREATE)
    ensures Apply(Some(AFTER_CREATE), Pay(10)) == Some(AFTER_FIRST_PAYMENT)
    ensures ProcessInstruction(PROGRAM, SUBSCRIPTION, Derive, Some(AFTER_FIRST_PAYMENT), Withdraw(OWNER_B, 500))
            == Err(Custom(WithdrawalOverMaxAllowed))
    ensures Apply(Some(AFTER_FIRST_PAYMENT), Withdraw(OWNER_B, 100)) == Some(AFTER_FIRST_WITHDRAWAL)
    ensures Apply(Some(AFTER_FIRST_WITHDRAWAL), Pay(20)) == Some(AFTER_SECOND_PAYMENT)
    ensures Apply(Some(AFTER_SECOND_PAYMENT), Withdraw(OWNER_B, 300)) == Some(AFTER_SECOND_WITHDRAWAL)
    ensures AFTER_SECOND_WITHDRAWAL.withdrawn_amounts == [0, 400] && AFTER_SECOND_WITHDRAWAL.total_paid == 2000
  {
    KeysDiffer(6, 7);
    var args := CreateSubscriptionArgs([OWNER_A, OWNER_B], [80, 20], MINT, RESOURCE, 1000, 1000);
    assert seq(2, _ => 0) == [0, 0];
    assert InitialState(args) == AFTER_CREATE;
    assert ExtendPaidUntil(0, 10, 1000) == Some(1010);
    assert IndexOf(AFTER_CREATE.owner_addresses, OWNER_B) == Some(1);
    assert Entitlement(1000, 20) == 200;
    assert AFTER_FIRST_PAYMENT.withdrawn_amounts[1 := 100] == [0, 100];
    assert ExtendPaidUntil(1010, 20, 1000) == Some(2010);
    assert Entitlement(2000, 20) == 400;
    assert AFTER_SECOND_PAYMENT.withdrawn_amounts[1 := 400] == [0, 400];
  }
}
