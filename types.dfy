/** Machine integers, public keys and the views of the token program's
    accounts that the subscription handlers read. */
module Types {

  const U64_MAX: int := 0xFFFF_FFFF_FFFF_FFFF
  const I64_MIN: int := -0x8000_0000_0000_0000
  const I64_MAX: int := 0x7FFF_FFFF_FFFF_FFFF

  type u8 = x: int | 0 <= x < 0x100
  type u64 = x: int | 0 <= x <= 0xFFFF_FFFF_FFFF_FFFF
  type i64 = x: int | -0x8000_0000_0000_0000 <= x <= 0x7FFF_FFFF_FFFF_FFFF

  /** A 32-byte account address. */
  type Pubkey = s: seq<u8> | |s| == 32 witness seq(32, _ => 0)

  /** The seed prefix of every subscription address: the bytes of "sub". */
  const PREFIX: seq<u8> := [0x73, 0x75, 0x62]

  /** The program-address derivation (`find_program_address` without its
      bump): seeds and program id to an address. It is foreign code, so it is
      a parameter of every handler that uses it; being a function, it is
      deterministic. */
  type Deriver = (seq<seq<u8>>, Pubkey) -> Pubkey

  /** The seeds of the subscription of `resource`: PREFIX, program id, resource. */
  function SubscriptionSeeds(programId: Pubkey, resource: Pubkey): seq<seq<u8>>
  {
    [PREFIX, programId, resource]
  }

  datatype Option<T> = None | Some(value: T)

  /** The fields of an SPL token account that the handlers inspect. */
  datatype TokenAccount = TokenAccount(
    owner: Pubkey,
    amount: u64,
    delegate: Option<Pubkey>,
    close_authority: Option<Pubkey>)

  /** One transfer requested from the token program. */
  datatype TokenTransfer = TokenTransfer(source: Pubkey, destination: Pubkey, amount: u64)

  /** The token program as an oracle: whether it carries out a transfer.
      A refused transfer aborts the whole call. */
  type TokenProgram = TokenTransfer -> bool

  /** `u64::saturating_sub`. */
  function SaturatingSub(a: u64, b: u64): u64
  {
    if a >= b then a - b else 0
  }

  /** `x as i64` for an unsigned 64-bit `x`: keeps the bit pattern, so values
      above i64::MAX become negative. This is the defining property of the
      cast: the one i64 congruent to `x` modulo 2^64. */
  function AsI64(x: u64): (r: i64)
    ensures I64_MIN <= r <= I64_MAX
    ensures (x - r) % 0x1_0000_0000_0000_0000 == 0
  {
    if x <= I64_MAX then x else x - 0x1_0000_0000_0000_0000
  }

  /** The range and the congruence determine the cast: no other i64 has
      the bit pattern of `x`. */
  lemma AsI64Unique(x: u64, y: int)
    requires I64_MIN <= y <= I64_MAX
    requires (x - y) % 0x1_0000_0000_0000_0000 == 0
    ensures y == AsI64(x)
  {
    var k := (x - y) / 0x1_0000_0000_0000_0000;
    assert x - y == 0x1_0000_0000_0000_0000 * k;
    assert 0 <= k <= 1;
  }

  /** Sum of a sequence of integers. */
  function Sum(xs: seq<int>): int
  {
    if |xs| == 0 then 0 else xs[0] + Sum(xs[1..])
  }
}
