/** `Verifier::verify_transaction`: turns a submitted extrinsic into a
    `VerifiedTransaction`, postponing the check when the signer's account is
    not found yet. */
module Verifier {
  import opened Primitives
  import opened Api
  import opened Transaction

  /** The message a lookup fails with when the address names no account. */
  const NO_ACCOUNT: string := "Account not found."
  /** The message a lookup fails with when the API itself fails. */
  const API_ERROR: string := "API error."

  /** The errors verification reports. */
  datatype Error =
    | IsInherent(uxt: UncheckedExtrinsic)  // an unsigned extrinsic cannot be pooled
    | Msg(message: string)                 // an error raised by the check

  /** The runtime operations verification relies on: SCALE encoding, the
      BlakeTwo256 hash, and the runtime's `check`, which resolves the signer
      address through the lookup it is given and verifies the signature. */
  datatype Runtime = Runtime(
    encode: UncheckedExtrinsic -> seq<byte>,
    blake2: seq<byte> -> Hash,
    check: (UncheckedExtrinsic, Address -> Result<AccountId, string>) -> Result<CheckedExtrinsic, string>
  )

  /** The lookup `check` is given: an address resolves to the account the API
      reports; an address without an account fails with `NO_ACCOUNT`, and an
      API failure with `API_ERROR`. */
  function LookupAddress(api: PolkadotApi, at: BlockId, address: Address): (r: Result<AccountId, string>)
    ensures r.Ok? <==> api.lookup(at, address).Ok? && api.lookup(at, address).value.Some?
    ensures r.Ok? ==> r.value == api.lookup(at, address).value.value
    ensures r == Err(NO_ACCOUNT) <==> api.lookup(at, address) == Ok(None)
    ensures r == Err(API_ERROR) <==> api.lookup(at, address).Err?
  {
    match api.lookup(at, address)
    case Ok(Some(account)) => Ok(account)
    case Ok(None) => Err(NO_ACCOUNT)
    case Err(_) => Err(API_ERROR)
  }

  /** The lookup closure, at block `at`: it resolves exactly the addresses
      the API knows an account for, and reports every other address with
      one of the two messages. */
  function Lookup(api: PolkadotApi, at: BlockId): (r: Address -> Result<AccountId, string>)
    ensures forall address :: r(address).Ok? <==> api.lookup(at, address).Ok? && api.lookup(at, address).value.Some?
    ensures forall address :: r(address).Ok? ==> r(address).value == api.lookup(at, address).value.value
    ensures forall address :: r(address).Err? ==> r(address).error == NO_ACCOUNT || r(address).error == API_ERROR
  {
    address => LookupAddress(api, at, address)
  }

  /** `verify_transaction`. */
  function VerifyTransaction(api: PolkadotApi, at: BlockId, rt: Runtime, uxt: UncheckedExtrinsic): (r: Result<VerifiedTransaction, Error>)
    // an unsigned extrinsic is an inherent, not a transaction
    ensures !uxt.IsSigned() ==> r == Err(IsInherent(uxt))
    // a passed check gives a fully verified transaction from the checked signer
    ensures uxt.IsSigned() && rt.check(uxt, Lookup(api, at)).Ok? ==>
      && r.Ok?
      && r.value.inner == Some(rt.check(uxt, Lookup(api, at)).value)
      && r.value.sender == Some(rt.check(uxt, Lookup(api, at)).value.signed)
    // a missing account postpones the check: the transaction is kept without sender
    ensures uxt.IsSigned() && rt.check(uxt, Lookup(api, at)) == Err(NO_ACCOUNT) ==>
      r.Ok? && r.value.inner.None? && r.value.sender.None? && !r.value.IsFullyVerified()
    // every other failure of the check is reported
    ensures uxt.IsSigned() && rt.check(uxt, Lookup(api, at)).Err? && rt.check(uxt, Lookup(api, at)).error != NO_ACCOUNT ==>
      r == Err(Msg(rt.check(uxt, Lookup(api, at)).error))
    // an accepted transaction keeps the extrinsic, its encoding's size and hash
    ensures r.Ok? ==>
      && r.value.WellFormed()
      && r.value.original == uxt
      && r.value.encodedSize == |rt.encode(uxt)|
      && r.value.hash == rt.blake2(rt.encode(uxt))
  {
    if !uxt.IsSigned() then Err(IsInherent(uxt))
    else
      var encoded := rt.encode(uxt);
      var checked := rt.check(uxt, Lookup(api, at));
      if checked.Err? && checked.error != NO_ACCOUNT then Err(Msg(checked.error))
      else
        var inner := if checked.Ok? then Some(checked.value) else None;
        var sender := if checked.Ok? then Some(checked.value.signed) else None;
        Ok(VerifiedTransaction(uxt, inner, sender, rt.blake2(encoded), |encoded|))
  }

  /** Verification succeeds exactly on signed extrinsics whose check passes
      or fails only for want of the account, and the result is fully
      verified exactly when the check passed. */
  lemma VerifyAcceptsExactly(api: PolkadotApi, at: BlockId, rt: Runtime, uxt: UncheckedExtrinsic)
    ensures var r := VerifyTransaction(api, at, rt, uxt);
      var checked := rt.check(uxt, Lookup(api, at));
      && (r.Ok? <==> uxt.IsSigned() && (checked.Ok? || checked.error == NO_ACCOUNT))
      && (r.Ok? ==> (r.value.IsFullyVerified() <==> checked.Ok?))
      && (r.Ok? ==> (r.value.Sender().Some? <==> r.value.IsFullyVerified()))
  {
  }
}
