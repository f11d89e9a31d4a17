/** `VerifiedTransaction`: an extrinsic that passed verification, possibly
    only partially (its signer account could not be found yet). */
module Transaction {
  import opened Primitives

  datatype VerifiedTransaction = VerifiedTransaction(
    original: UncheckedExtrinsic,
    inner: Option<CheckedExtrinsic>,
    sender: Option<AccountId>,
    hash: Hash,
    encodedSize: nat
  )
  {
    /** `as_transaction`: the extrinsic as submitted. */
    function AsTransaction(): UncheckedExtrinsic
    {
      original
    }

    /** `into_inner`: the checked extrinsic, present only when fully verified. */
    function IntoInner(): (r: Option<CheckedExtrinsic>)
      ensures r.Some? <==> IsFullyVerified()
    {
      inner
    }

    /** `sender`: the signer account, when known. */
    function Sender(): Option<AccountId>
    {
      sender
    }

    /** `hash`: the hash of the encoded extrinsic. */
    function Hash(): Hash
    {
      hash
    }

    /** `index`: the index the submitted extrinsic carries. It is read from
        the original extrinsic, so it is defined on partially verified
        transactions too. */
    function Index(): Index
    {
      original.extrinsic.index
    }

    /** `encoded_size`. */
    function EncodedSize(): nat
    {
      encodedSize
    }

    /** `mem_usage` of the pool's transaction interface: the encoded size. */
    function MemUsage(): nat
    {
      encodedSize
    }

    /** `is_fully_verified`: the checked extrinsic is present. (This holds for
        FULLY verified transactions, whatever the accessor's doc comment says.)
        A well-formed transaction is fully verified exactly when its sender
        is known. */
    function IsFullyVerified(): (r: bool)
      ensures WellFormed() ==> (r <==> sender.Some?)
    {
      inner.Some?
    }

    /** The shape every transaction the verifier builds has: the sender is
        the checked extrinsic's signer, and absent exactly when the check
        was postponed. */
    predicate WellFormed()
    {
      match inner
      case Some(xt) => sender == Some(xt.signed)
      case None => sender.None?
    }
  }

  /** In a well-formed transaction the sender is known exactly when the
      transaction is fully verified. */
  lemma SenderKnownIffFullyVerified(tx: VerifiedTransaction)
    requires tx.WellFormed()
    ensures tx.Sender().Some? <==> tx.IsFullyVerified()
    ensures tx.IsFullyVerified() ==> tx.Sender() == Some(tx.IntoInner().value.signed)
  {
  }
}
