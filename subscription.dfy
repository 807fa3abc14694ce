/** The subscription record, its capacity constants, the per-owner
    entitlement and the record invariant. */
module Subscription {
  import opened Types
  import opened Errors

  const OWNER_SIZE: int := 8 + 1
  const MAX_OWNER_LIMIT: int := 5
  const BASE_SUBSCRIPTION_DATA_SIZE: int := 32 + 8 + 8 + 8
  /** The number of bytes allocated for every subscription record, whatever
      its number of owners. */
  const MAX_SUBSCRIPTION_SIZE: int :=
    BASE_SUBSCRIPTION_DATA_SIZE + MAX_OWNER_LIMIT * 32 + MAX_OWNER_LIMIT * 1 + MAX_OWNER_LIMIT * 8

  /** The decoded content of a subscription account. The three lists are
      meant to be index-aligned: owner i has address owner_addresses[i],
      share owner_shares[i] (a percentage) and has withdrawn
      withdrawn_amounts[i] so far. */
  datatype SubscriptionState = SubscriptionState(
    token_mint: Pubkey,
    owner_addresses: seq<Pubkey>,
    owner_shares: seq<u8>,
    withdrawn_amounts: seq<u64>,
    total_paid: u64,
    price: u64,
    period_duration: u64,
    paid_until: i64)

  /** The outcome of a successful payment or withdrawal: the record to write
      back and the one transfer the handler asked the token program for. */
  datatype Committed = Committed(state: SubscriptionState, transfer: TokenTransfer)

  /** The capacity limit, written out: 261 bytes, the same for every owner count. */
  lemma MaxSubscriptionSizeValue()
    ensures BASE_SUBSCRIPTION_DATA_SIZE == 56
    ensures MAX_SUBSCRIPTION_SIZE == 261
  {
  }

  /** Number of bytes the record occupies in Borsh encoding: a 32-byte mint,
      three vectors each with a 4-byte length prefix (32-byte addresses,
      1-byte shares, 8-byte amounts) and four 8-byte integers. */
  function EncodedSize(s: SubscriptionState): nat
  {
    32 + (4 + 32 * |s.owner_addresses|) + (4 + |s.owner_shares|)
       + (4 + 8 * |s.withdrawn_amounts|) + 8 + 8 + 8 + 8
  }

  /** The space a record with MAX_OWNER_LIMIT aligned owners really needs. */
  const SUBSCRIPTION_SPACE: int := 32 + 8 + 8 + 8 + 8 + 3 * 4 + MAX_OWNER_LIMIT * (32 + 1 + 8)

  /** An owner's lifetime entitlement: `total_paid` times `share` percent,
      rounded down, and capped at u64::MAX as the saturating float-to-u64
      conversion does. */
  function Entitlement(total_paid: u64, share: u8): (r: u64)
    ensures 100 * r <= total_paid * share
    ensures r < U64_MAX ==> total_paid * share < 100 * (r + 1)
    ensures share <= 100 ==> r <= total_paid
  {
    var scaled := total_paid * share;
    var exact := scaled / 100;
    assert share <= 100 ==> scaled <= total_paid * 100 by {
      if share <= 100 { ScaleMonotonic(total_paid, share, 100); }
    }
    if exact > U64_MAX then U64_MAX else exact
  }

  /** A larger `total_paid` never lowers an entitlement. */
  lemma EntitlementMonotonic(t1: u64, t2: u64, share: u8)
    requires t1 <= t2
    ensures Entitlement(t1, share) <= Entitlement(t2, share)
  {
    ScaleMonotonic(share, t1, t2);
    assert t1 * share <= t2 * share;
    PercentMonotonic(t1 * share, t2 * share);
  }

  lemma PercentMonotonic(a: nat, b: nat)
    requires a <= b
    ensures a / 100 <= b / 100
  {
    var qa, qb := a / 100, b / 100;
    assert a == 100 * qa + a % 100 && b == 100 * qb + b % 100;
  }

  /** The three lists are aligned and within capacity. */
  predicate Aligned(s: SubscriptionState)
  {
    |s.owner_addresses| <= MAX_OWNER_LIMIT
    && |s.owner_shares| == |s.owner_addresses|
    && |s.withdrawn_amounts| == |s.owner_addresses|
  }

  /** The record invariant: aligned lists, and no owner has withdrawn more
      than their entitlement. */
  predicate Valid(s: SubscriptionState)
  {
    Aligned(s)
    && forall i :: 0 <= i < |s.withdrawn_amounts| ==>
         s.withdrawn_amounts[i] <= Entitlement(s.total_paid, s.owner_shares[i])
  }

  /** Every aligned record within capacity fits the corrected space, and a
      record with exactly MAX_OWNER_LIMIT owners fills it. */
  lemma AlignedRecordFits(s: SubscriptionState)
    requires Aligned(s)
    ensures EncodedSize(s) <= SUBSCRIPTION_SPACE
    ensures |s.owner_addresses| == MAX_OWNER_LIMIT ==> EncodedSize(s) == SUBSCRIPTION_SPACE
  {
  }

  /** Each owner's withdrawals, scaled by 100, stay within total_paid times
      their share; so does their sum. */
  lemma {:induction false} ScaledWithdrawnBound(w: seq<int>, sh: seq<int>, total: int)
    requires |w| == |sh|
    requires forall i :: 0 <= i < |w| ==> 100 * w[i] <= total * sh[i]
    ensures 100 * Sum(w) <= total * Sum(sh)
  {
    if |w| > 0 {
      assert forall i :: 0 <= i < |w[1..]| ==> w[1..][i] == w[i + 1] && sh[1..][i] == sh[i + 1];
      ScaledWithdrawnBound(w[1..], sh[1..], total);
      assert 100 * w[0] <= total * sh[0];
      ScaleDistributes(total, sh[0], Sum(sh[1..]));
    }
  }

  lemma ScaleDistributes(a: int, b: int, c: int)
    ensures a * (b + c) == a * b + a * c
  {
  }

  /** When the shares add up to at most 100 percent, the owners together
      have never withdrawn more than was ever paid in. */
  lemma AggregateWithdrawnWithinTotal(s: SubscriptionState)
    requires Valid(s)
    requires Sum(s.owner_shares) <= 100
    ensures Sum(s.withdrawn_amounts) <= s.total_paid
  {
    forall i | 0 <= i < |s.withdrawn_amounts|
      ensures 100 * s.withdrawn_amounts[i] <= s.total_paid * s.owner_shares[i]
    {
      var e: int := Entitlement(s.total_paid, s.owner_shares[i]);
      var w: int := s.withdrawn_amounts[i];
      assert 100 * w <= 100 * e;
    }
    ScaledWithdrawnBound(s.withdrawn_amounts, s.owner_shares, s.total_paid);
    ScaleMonotonic(s.total_paid, Sum(s.owner_shares), 100);
  }

  lemma ScaleMonotonic(a: nat, b: int, c: int)
    requires b <= c
    ensures a * b <= a * c
  {
  }

  /** Nothing bounds the sum of the shares: two owners at 100 percent each
      can have withdrawn twice what was paid, in a valid record. */
  lemma OverAllocatedSharesExceedTotal(mint: Pubkey, a: Pubkey, b: Pubkey)
    ensures var s := SubscriptionState(mint, [a, b], [100, 100], [1000, 1000], 1000, 1000, 1000, 0);
      Valid(s) && Sum(s.withdrawn_amounts) == 2 * s.total_paid
  {
    var s := SubscriptionState(mint, [a, b], [100, 100], [1000, 1000], 1000, 1000, 1000, 0);
    assert Entitlement(1000, 100) == 1000;
    assert Sum(s.withdrawn_amounts) == 1000 + Sum([1000 as u64]);
  }

  /** The account that holds a subscription record at its address. */
  class SubscriptionAccount {
    const key: Pubkey
    var data: SubscriptionState

    constructor (key: Pubkey, data: SubscriptionState)
      ensures this.key == key && this.data == data
    {
      this.key := key;
      this.data := data;
    }
  }

  /** The record as loaded into memory by a handler, changed in place and
      finally written back over the account's data. */
  class SubscriptionData {
    var token_mint: Pubkey
    var owner_addresses: seq<Pubkey>
    var owner_shares: seq<u8>
    var withdrawn_amounts: seq<u64>
    var total_paid: u64
    var price: u64
    var period_duration: u64
    var paid_until: i64

    /** The value that serialising this record writes. */
    function State(): SubscriptionState
      reads this
    {
      SubscriptionState(token_mint, owner_addresses, owner_shares, withdrawn_amounts,
                        total_paid, price, period_duration, paid_until)
    }

    /** Loads the record from an account's data. */
    constructor FromAccountInfo(s: SubscriptionState)
      ensures State() == s
    {
      token_mint := s.token_mint;
      owner_addresses := s.owner_addresses;
      owner_shares := s.owner_shares;
      withdrawn_amounts := s.withdrawn_amounts;
      total_paid := s.total_paid;
      price := s.price;
      period_duration := s.period_duration;
      paid_until := s.paid_until;
    }

    /** Adds `amount` to `total_paid`; every other field keeps its value.
        The sum must fit in a u64. */
    method AddFunds(amount: u64)
      requires total_paid + amount <= U64_MAX
      modifies this`total_paid
      ensures total_paid == old(total_paid) + amount
      ensures State() == old(State()).(total_paid := old(total_paid) + amount)
    {
      total_paid := total_paid + amount;
    }
  }
}
