/** The WithdrawFunds handler: escrow and derivation checks, the mint
    check, the owner lookup, the entitlement cap, one transfer out of
    escrow and the update of that owner's withdrawn amount. */
module Withdrawal {
  import opened Types
  import opened Errors
  import opened Subscription

  datatype WithdrawFundsArgs = WithdrawFundsArgs(resource: Pubkey, amount: u64)

  /** The accounts of a withdrawal: the withdrawing signer, their token
      account, the escrow account with its address, and the mint. */
  datatype WithdrawAccounts = WithdrawAccounts(
    withdrawer: Pubkey,
    withdrawer_token: Pubkey,
    funds_token: Pubkey,
    funds_token_account: TokenAccount,
    mint: Pubkey)

  /** The first position of `key` in `addresses`, if any. */
  function IndexOf(addresses: seq<Pubkey>, key: Pubkey): (r: Option<nat>)
    ensures r.Some? ==> r.value < |addresses| && addresses[r.value] == key
    ensures r.Some? ==> forall j :: 0 <= j < r.value ==> addresses[j] != key
    ensures r.None? <==> key !in addresses
    decreases |addresses|
  {
    if |addresses| == 0 then None
    else if addresses[0] == key then Some(0)
    else match IndexOf(addresses[1..], key)
      case None => None
      case Some(i) => Some(i + 1)
  }

  /** `iter().position(..)`: a left-to-right scan for `key`. */
  method Position(addresses: seq<Pubkey>, key: Pubkey) returns (r: Option<nat>)
    ensures r.Some? ==> r.value < |addresses| && addresses[r.value] == key
    ensures r.Some? ==> forall j :: 0 <= j < r.value ==> addresses[j] != key
    ensures r.None? ==> key !in addresses
    ensures r == IndexOf(addresses, key)
  {
    var i := 0;
    while i < |addresses|
      invariant 0 <= i <= |addresses|
      invariant forall j :: 0 <= j < i ==> addresses[j] != key
    {
      if addresses[i] == key {
        return Some(i);
      }
      i := i + 1;
    }
    return None;
  }

  /** The transfer a withdrawal asks for: `amount` from escrow to the
      withdrawer's token account. */
  function WithdrawalTransfer(accounts: WithdrawAccounts, amount: u64): TokenTransfer
  {
    TokenTransfer(accounts.funds_token, accounts.withdrawer_token, amount)
  }

  /** Whether the escrow belongs to the subscription and the subscription
      address is the one derived from the resource: the two checks made
      before the record is loaded. */
  predicate AccountsMatch(
    programId: Pubkey, subscriptionKey: Pubkey, accounts: WithdrawAccounts,
    args: WithdrawFundsArgs, derive: Deriver)
  {
    accounts.funds_token_account.owner == subscriptionKey
    && derive(SubscriptionSeeds(programId, args.resource), programId) == subscriptionKey
  }

  /** The whole effect of one withdrawal on the record `s` stored at
      `subscriptionKey`. */
  function WithdrawFundsResult(
    programId: Pubkey, s: SubscriptionState, subscriptionKey: Pubkey, accounts: WithdrawAccounts,
    args: WithdrawFundsArgs, derive: Deriver, token: TokenProgram): (r: Result<Committed>)
    // checks made before the record is read
    ensures accounts.funds_token_account.owner != subscriptionKey ==>
              r == Err(Custom(FundsTokenAccountOwnerMismatch))
    ensures accounts.funds_token_account.owner == subscriptionKey
            && derive(SubscriptionSeeds(programId, args.resource), programId) != subscriptionKey ==>
              r == Err(Custom(DerivedKeyInvalid))
    ensures AccountsMatch(programId, subscriptionKey, accounts, args, derive)
            && s.token_mint != accounts.mint ==>
              r == Err(Custom(IncorrectMint))
    ensures AccountsMatch(programId, subscriptionKey, accounts, args, derive)
            && s.token_mint == accounts.mint
            && accounts.withdrawer !in s.owner_addresses ==>
              r == Err(Custom(WithdrawerIsNotAnOwner))
    // success: the withdrawer is the owner at the first matching position,
    // the amount is within what is left of their entitlement, exactly that
    // amount leaves escrow, and only their withdrawn amount changes
    ensures r.Ok? ==>
              AccountsMatch(programId, subscriptionKey, accounts, args, derive)
              && s.token_mint == accounts.mint
              && IndexOf(s.owner_addresses, accounts.withdrawer).Some?
              && var i := IndexOf(s.owner_addresses, accounts.withdrawer).value;
                 i < |s.owner_shares| && i < |s.withdrawn_amounts|
                 && s.withdrawn_amounts[i] + args.amount <= Entitlement(s.total_paid, s.owner_shares[i])
                 && r.value.transfer == TokenTransfer(accounts.funds_token, accounts.withdrawer_token, args.amount)
                 && token(r.value.transfer)
                 && r.value.state == s.(withdrawn_amounts := s.withdrawn_amounts[i := s.withdrawn_amounts[i] + args.amount])
    // and a success happens exactly when every check passes and the token
    // program accepts the transfer
    ensures r.Ok? <==>
              AccountsMatch(programId, subscriptionKey, accounts, args, derive)
              && s.token_mint == accounts.mint
              && IndexOf(s.owner_addresses, accounts.withdrawer).Some?
              && var i := IndexOf(s.owner_addresses, accounts.withdrawer).value;
                 i < |s.owner_shares| && i < |s.withdrawn_amounts|
                 && s.withdrawn_amounts[i] + args.amount <= Entitlement(s.total_paid, s.owner_shares[i])
                 && token(WithdrawalTransfer(accounts, args.amount))
    // a request above what is left fails with WithdrawalOverMaxAllowed
    ensures AccountsMatch(programId, subscriptionKey, accounts, args, derive)
            && s.token_mint == accounts.mint
            && IndexOf(s.owner_addresses, accounts.withdrawer).Some?
            && IndexOf(s.owner_addresses, accounts.withdrawer).value < |s.owner_shares|
            && IndexOf(s.owner_addresses, accounts.withdrawer).value < |s.withdrawn_amounts| ==>
              var i := IndexOf(s.owner_addresses, accounts.withdrawer).value;
              var entitled := Entitlement(s.total_paid, s.owner_shares[i]);
              s.withdrawn_amounts[i] <= entitled && args.amount > entitled - s.withdrawn_amounts[i] ==>
                r == Err(Custom(WithdrawalOverMaxAllowed))
  {
    if accounts.funds_token_account.owner != subscriptionKey then
      Err(Custom(FundsTokenAccountOwnerMismatch))
    else if derive(SubscriptionSeeds(programId, args.resource), programId) != subscriptionKey then
      Err(Custom(DerivedKeyInvalid))
    else if s.token_mint != accounts.mint then
      Err(Custom(IncorrectMint))
    else match IndexOf(s.owner_addresses, accounts.withdrawer)
      case None => Err(Custom(WithdrawerIsNotAnOwner))
      case Some(i) =>
        if i >= |s.owner_shares| then Err(Panic)
        else if i >= |s.withdrawn_amounts| then Err(Panic)
        else
          var entitled := Entitlement(s.total_paid, s.owner_shares[i]);
          var current := s.withdrawn_amounts[i];
          if current > entitled then Err(Panic)
          else if args.amount > entitled - current then Err(Custom(WithdrawalOverMaxAllowed))
          else if !token(WithdrawalTransfer(accounts, args.amount)) then Err(Custom(TokenTransferFailed))
          else Ok(Committed(s.(withdrawn_amounts := s.withdrawn_amounts[i := current + args.amount]),
                            WithdrawalTransfer(accounts, args.amount)))
  }

  /** A withdrawal keeps the record invariant: the one amount that grows
      stays within its owner's entitlement. */
  lemma WithdrawPreservesValid(
    programId: Pubkey, s: SubscriptionState, subscriptionKey: Pubkey, accounts: WithdrawAccounts,
    args: WithdrawFundsArgs, derive: Deriver, token: TokenProgram)
    requires Valid(s)
    requires WithdrawFundsResult(programId, s, subscriptionKey, accounts, args, derive, token).Ok?
    ensures Valid(WithdrawFundsResult(programId, s, subscriptionKey, accounts, args, derive, token).value.state)
  {
  }

  /** On a valid record no withdrawal aborts: the share and withdrawn
      lookups succeed and the entitlement never falls below what was
      withdrawn. */
  lemma ValidRecordNeverPanics(
    programId: Pubkey, s: SubscriptionState, subscriptionKey: Pubkey, accounts: WithdrawAccounts,
    args: WithdrawFundsArgs, derive: Deriver, token: TokenProgram)
    requires Valid(s)
    ensures WithdrawFundsResult(programId, s, subscriptionKey, accounts, args, derive, token) != Err(Panic)
  {
  }

  /** On a record written by the unrepaired creation, with fewer shares than
      owners, the last owner's withdrawal aborts on the missing share. */
  lemma MissingShareAborts(
    programId: Pubkey, s: SubscriptionState, subscriptionKey: Pubkey, accounts: WithdrawAccounts,
    args: WithdrawFundsArgs, derive: Deriver, token: TokenProgram)
    requires AccountsMatch(programId, subscriptionKey, accounts, args, derive)
    requires s.token_mint == accounts.mint
    requires s.owner_addresses == [accounts.withdrawer] && s.owner_shares == []
    ensures WithdrawFundsResult(programId, s, subscriptionKey, accounts, args, derive, token) == Err(Panic)
  {
    assert IndexOf(s.owner_addresses, accounts.withdrawer) == Some(0);
  }

  /** The handler as it runs: check the escrow and the derivation, load the
      record, find the owner, cap the amount, transfer, update one withdrawn
      amount and write the record back. A failure writes nothing. */
  method WithdrawFunds(
    programId: Pubkey, account: SubscriptionAccount, accounts: WithdrawAccounts,
    args: WithdrawFundsArgs, derive: Deriver, token: TokenProgram) returns (r: Result<()>)
    modifies account
    ensures var expected := WithdrawFundsResult(programId, old(account.data), account.key, accounts, args, derive, token);
            (expected.Ok? ==> r == Ok(()) && account.data == expected.value.state)
            && (expected.Err? ==> r == Err(expected.error) && account.data == old(account.data))
  {
    if accounts.funds_token_account.owner != account.key {
      return Err(Custom(FundsTokenAccountOwnerMismatch));
    }
    if derive(SubscriptionSeeds(programId, args.resource), programId) != account.key {
      return Err(Custom(DerivedKeyInvalid));
    }

    var subscription := new SubscriptionData.FromAccountInfo(account.data);
    if subscription.token_mint != accounts.mint {
      return Err(Custom(IncorrectMint));
    }

    var ownerIndex := Position(subscription.owner_addresses, accounts.withdrawer);
    if ownerIndex.None? {
      return Err(Custom(WithdrawerIsNotAnOwner));
    }
    var i := ownerIndex.value;

    if i >= |subscription.owner_shares| {
      return Err(Panic);
    }
    var share := subscription.owner_shares[i];
    if i >= |subscription.withdrawn_amounts| {
      return Err(Panic);
    }
    var currentWithdrawn := subscription.withdrawn_amounts[i];
    var maxAbsoluteShare := Entitlement(subscription.total_paid, share);
    if currentWithdrawn > maxAbsoluteShare {
      return Err(Panic);
    }
    var maxToWithdraw := maxAbsoluteShare - currentWithdrawn;
    if args.amount > maxToWithdraw {
      return Err(Custom(WithdrawalOverMaxAllowed));
    }

    if !token(TokenTransfer(accounts.funds_token, accounts.withdrawer_token, args.amount)) {
      return Err(Custom(TokenTransferFailed));
    }

    subscription.withdrawn_amounts := subscription.withdrawn_amounts[i := currentWithdrawn + args.amount];
    account.data := subscription.State();
    return Ok(());
  }
}
