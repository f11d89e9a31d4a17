/** Value types shared by the transaction pool: accounts, indices, hashes,
    addresses and the extrinsic formats of the Polkadot runtime, together with
    the Option, Result and Ordering types the pool code is written against. */
module Primitives {

  newtype byte = x: int | 0 <= x < 0x100

  /** The largest `Index`. The index of a transaction is a 32-bit unsigned
      integer (`primitives::Index`). */
  const MAX_INDEX: int := 0xFFFF_FFFF

  /** Transaction index (nonce) of an account. */
  type Index = x: int | 0 <= x <= MAX_INDEX

  /** Compact account index used in `RawAddress::Index` (64-bit). */
  type AccountIndex = x: int | 0 <= x < 0x1_0000_0000_0000_0000

  /** A score as kept by the pool (`u64`). */
  type Score = x: int | 0 <= x < 0x1_0000_0000_0000_0000

  /** A 32-byte account identifier (an ed25519 public key). */
  type AccountId = s: seq<byte> | |s| == 32 witness seq(32, _ => 0 as byte)

  /** A 256-bit hash. */
  type Hash = s: seq<byte> | |s| == 32 witness seq(32, _ => 0 as byte)

  /** A block identifier, by number or by hash. */
  datatype BlockId = Number(number: nat) | ByHash(hash: Hash)

  /** `RawAddress<AccountId, AccountIndex>`: an extrinsic names its signer
      either directly or by a compact account index. */
  datatype Address = Id(id: AccountId) | AccountIndexAddress(accountIndex: AccountIndex)

  /** The call an extrinsic dispatches, kept as its encoding: the pool never
      looks inside it. */
  datatype Call = Call(encoded: seq<byte>)

  /** The signed payload of an unchecked extrinsic. */
  datatype Extrinsic = Extrinsic(signed: Address, index: Index, call: Call)

  /** An extrinsic as received. `signature` is `None` for an unsigned
      (inherent) extrinsic. */
  datatype UncheckedExtrinsic = UncheckedExtrinsic(extrinsic: Extrinsic, signature: Option<seq<byte>>)
  {
    predicate IsSigned() { signature.Some? }
  }

  /** An extrinsic whose signer address has been resolved to an account and
      whose signature has been checked. */
  datatype CheckedExtrinsic = CheckedExtrinsic(signed: AccountId, index: Index, call: Call)

  datatype Option<+T> = None | Some(value: T)

  datatype Result<+T, +E> = Ok(value: T) | Err(error: E)

  /** `std::cmp::Ordering`. */
  datatype Ordering = Less | Equal | Greater
  {
    function Reverse(): Ordering
    {
      match this
      case Less => Greater
      case Equal => Equal
      case Greater => Less
    }
  }

  /** `Ord::cmp` on integers. */
  function Cmp(a: int, b: int): (r: Ordering)
    ensures r == Less <==> a < b
    ensures r == Equal <==> a == b
    ensures r == Greater <==> a > b
  {
    if a < b then Less else if a == b then Equal else Greater
  }

  /** `saturating_add` on `Index`: the sum, clamped at `MAX_INDEX`. */
  function SaturatingAdd(a: Index, b: Index): (r: Index)
    ensures a <= r <= a + b
    ensures r == a + b || (r == MAX_INDEX && a + b > MAX_INDEX)
  {
    if a + b <= MAX_INDEX then a + b else MAX_INDEX
  }

  /** Adding one saturates: it increases every index below the maximum by one
      and leaves the maximum where it is. */
  lemma SaturatingIncrement(a: Index)
    ensures a < MAX_INDEX ==> SaturatingAdd(a, 1) == a + 1
    ensures a == MAX_INDEX ==> SaturatingAdd(a, 1) == MAX_INDEX
    ensures SaturatingAdd(a, 1) >= a
    ensures SaturatingAdd(a, 1) == a <==> a == MAX_INDEX
  {
  }
}
