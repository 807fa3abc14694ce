/** The CreateSubscription handler: guards in order, then the initial
    record. The handler only writes a fresh record, so it is a function from
    its inputs to that record or an error. */
module Creation {
  import opened Types
  import opened Errors
  import opened Subscription

  datatype CreateSubscriptionArgs = CreateSubscriptionArgs(
    owner_addresses: seq<Pubkey>,
    owner_shares: seq<u8>,
    token_mint: Pubkey,
    resource: Pubkey,
    price: u64,
    period_duration: u64)

  /** Whether the supplied subscription address is the derived one. */
  predicate AddressMatches(programId: Pubkey, subscriptionKey: Pubkey, resource: Pubkey, derive: Deriver)
  {
    derive(SubscriptionSeeds(programId, resource), programId) == subscriptionKey
  }

  /** The record a successful creation writes. */
  function InitialState(args: CreateSubscriptionArgs): SubscriptionState
  {
    SubscriptionState(
      args.token_mint,
      args.owner_addresses,
      args.owner_shares,
      seq(|args.owner_addresses|, _ => 0),
      0,
      args.price,
      args.period_duration,
      0)
  }

  /** The handler as the source has it: the share-count guard compares the
      share list with itself, and the record is written into an allocation
      of MAX_SUBSCRIPTION_SIZE bytes, which fails when the record needs
      more. `derive` is the address derivation; `allocationOk` says whether
      the allocator can create the account. */
  function CreateSubscriptionAsWritten(
    programId: Pubkey, subscriptionKey: Pubkey, args: CreateSubscriptionArgs,
    derive: Deriver, allocationOk: bool): (r: Result<SubscriptionState>)
    ensures !AddressMatches(programId, subscriptionKey, args.resource, derive) ==>
              r == Err(Custom(InvalidSubscriptionAccount))
    ensures AddressMatches(programId, subscriptionKey, args.resource, derive)
            && |args.owner_addresses| > MAX_OWNER_LIMIT ==>
              r == Err(Custom(MaxOwnersExceeded))
    ensures r != Err(Custom(OwnerAddressesToSharesMismatch))
    // no guard compares the two list lengths; only the fit into the
    // original allocation, which counts every share, limits the share list
    ensures r.Ok? <==>
              AddressMatches(programId, subscriptionKey, args.resource, derive)
              && |args.owner_addresses| <= MAX_OWNER_LIMIT
              && allocationOk
              && EncodedSize(InitialState(args)) <= MAX_SUBSCRIPTION_SIZE
    ensures r.Ok? ==>
              r.value == InitialState(args)
              && EncodedSize(r.value) <= MAX_SUBSCRIPTION_SIZE
              && |r.value.owner_addresses| <= MAX_OWNER_LIMIT
  {
    if !AddressMatches(programId, subscriptionKey, args.resource, derive) then
      Err(Custom(InvalidSubscriptionAccount))
    else if |args.owner_addresses| > MAX_OWNER_LIMIT then
      Err(Custom(MaxOwnersExceeded))
    else if |args.owner_shares| != |args.owner_shares| then
      Err(Custom(OwnerAddressesToSharesMismatch))
    else if !allocationOk then
      Err(AllocationFailed)
    else if EncodedSize(InitialState(args)) > MAX_SUBSCRIPTION_SIZE then
      Err(BorshIoError)
    else
      Ok(InitialState(args))
  }

  /** As written, a share list of a different length than the owner list is
      accepted: one owner, no share. */
  lemma AsWrittenAcceptsMismatchedShares(programId: Pubkey, key: Pubkey, owner: Pubkey, mint: Pubkey, resource: Pubkey)
    ensures var args := CreateSubscriptionArgs([owner], [], mint, resource, 500, 1000);
            var r := CreateSubscriptionAsWritten(programId, key, args, (_, _) => key, true);
            r.Ok? && |r.value.owner_shares| != |r.value.owner_addresses|
  {
    var args := CreateSubscriptionArgs([owner], [], mint, resource, 500, 1000);
    assert EncodedSize(InitialState(args)) == 32 + 36 + 4 + 12 + 32;
  }

  /** As written, only the 261-byte fit limits the share list: with four
      owners, creation succeeds exactly when there are at most 25 shares. */
  lemma AsWrittenShareListLimitedByFit(
    programId: Pubkey, key: Pubkey, owners: seq<Pubkey>, shares: seq<u8>, mint: Pubkey, resource: Pubkey)
    requires |owners| == 4
    ensures var args := CreateSubscriptionArgs(owners, shares, mint, resource, 500, 1000);
            CreateSubscriptionAsWritten(programId, key, args, (_, _) => key, true).Ok? <==> |shares| <= 25
  {
    var args := CreateSubscriptionArgs(owners, shares, mint, resource, 500, 1000);
    assert EncodedSize(InitialState(args)) == 236 + |shares|;
  }

  /** As written, five owners with five shares pass the owner-count guard,
      but their record needs 281 bytes and only 261 are allocated, so the
      record cannot be written. */
  lemma AsWrittenRejectsFiveOwners(programId: Pubkey, key: Pubkey, owners: seq<Pubkey>, mint: Pubkey, resource: Pubkey)
    requires |owners| == MAX_OWNER_LIMIT
    ensures var args := CreateSubscriptionArgs(owners, [20, 20, 20, 20, 20], mint, resource, 500, 1000);
            CreateSubscriptionAsWritten(programId, key, args, (_, _) => key, true) == Err(BorshIoError)
  {
    var args := CreateSubscriptionArgs(owners, [20, 20, 20, 20, 20], mint, resource, 500, 1000);
    assert EncodedSize(InitialState(args)) == 281;
  }

  /** The handler with both defects repaired: the share list must be as long
      as the owner list, and the record is allocated SUBSCRIPTION_SPACE
      bytes, which every record passing the guards fits. */
  function CreateSubscription(
    programId: Pubkey, subscriptionKey: Pubkey, args: CreateSubscriptionArgs,
    derive: Deriver, allocationOk: bool): (r: Result<SubscriptionState>)
    // the derivation check comes first
    ensures !AddressMatches(programId, subscriptionKey, args.resource, derive) ==>
              r == Err(Custom(InvalidSubscriptionAccount))
    ensures AddressMatches(programId, subscriptionKey, args.resource, derive)
            && |args.owner_addresses| > MAX_OWNER_LIMIT ==>
              r == Err(Custom(MaxOwnersExceeded))
    ensures AddressMatches(programId, subscriptionKey, args.resource, derive)
            && |args.owner_addresses| <= MAX_OWNER_LIMIT
            && |args.owner_shares| != |args.owner_addresses| ==>
              r == Err(Custom(OwnerAddressesToSharesMismatch))
    ensures r.Ok? <==>
              AddressMatches(programId, subscriptionKey, args.resource, derive)
              && |args.owner_addresses| <= MAX_OWNER_LIMIT
              && |args.owner_shares| == |args.owner_addresses|
              && allocationOk
    // the new record: arguments copied, nothing paid or withdrawn yet
    ensures r.Ok? ==>
              r.value.token_mint == args.token_mint
              && r.value.owner_addresses == args.owner_addresses
              && r.value.owner_shares == args.owner_shares
              && r.value.price == args.price
              && r.value.period_duration == args.period_duration
              && r.value.total_paid == 0
              && r.value.paid_until == 0
              && |r.value.withdrawn_amounts| == |args.owner_addresses|
              && (forall i :: 0 <= i < |r.value.withdrawn_amounts| ==> r.value.withdrawn_amounts[i] == 0)
    ensures r.Ok? ==> Valid(r.value) && EncodedSize(r.value) <= SUBSCRIPTION_SPACE
  {
    if !AddressMatches(programId, subscriptionKey, args.resource, derive) then
      Err(Custom(InvalidSubscriptionAccount))
    else if |args.owner_addresses| > MAX_OWNER_LIMIT then
      Err(Custom(MaxOwnersExceeded))
    else if |args.owner_shares| != |args.owner_addresses| then
      Err(Custom(OwnerAddressesToSharesMismatch))
    else if !allocationOk then
      Err(AllocationFailed)
    else
      AlignedRecordFits(InitialState(args));
      Ok(InitialState(args))
  }

  /** With the repairs, exactly MAX_OWNER_LIMIT owners are accepted. */
  lemma FiveOwnersAccepted(programId: Pubkey, key: Pubkey, owners: seq<Pubkey>, mint: Pubkey, resource: Pubkey)
    requires |owners| == MAX_OWNER_LIMIT
    ensures var args := CreateSubscriptionArgs(owners, [20, 20, 20, 20, 20], mint, resource, 500, 1000);
            var r := CreateSubscription(programId, key, args, (_, _) => key, true);
            r.Ok? && EncodedSize(r.value) == SUBSCRIPTION_SPACE
  {
  }

  /** Both versions agree wherever the source does not hit either defect:
      aligned lists and a record small enough for the original allocation. */
  lemma {:induction false} RepairAgreesWithSource(
    programId: Pubkey, key: Pubkey, args: CreateSubscriptionArgs, derive: Deriver, allocationOk: bool)
    requires |args.owner_shares| == |args.owner_addresses|
    requires |args.owner_addresses| < MAX_OWNER_LIMIT
    ensures CreateSubscription(programId, key, args, derive, allocationOk)
         == CreateSubscriptionAsWritten(programId, key, args, derive, allocationOk)
  {
    assert EncodedSize(InitialState(args)) <= 76 + 41 * 4;
  }
}
