/** The two queries the transaction pool makes of the chain state through
    `PolkadotApi`. The API itself (a client over storage) is outside the
    model; it is represented by the two functions it answers with. */
module Api {
  import opened Primitives

  /** An error reported by the API; its content is never inspected. */
  datatype ApiError = ApiError(message: string)

  datatype PolkadotApi = PolkadotApi(
    /** `index(at, account)`: the next index the account is expected to use at block `at`. */
    index: (BlockId, AccountId) -> Result<Index, ApiError>,
    /** `lookup(at, address)`: the account an address denotes at block `at`, if any. */
    lookup: (BlockId, Address) -> Result<Option<AccountId>, ApiError>
  )
}
