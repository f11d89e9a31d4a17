/** The vocabulary of the generic transaction-pool library the Polkadot pool
    plugs into: what a readiness check and a scoring decision can answer. */
module Txpool {

  /** Whether a pending transaction can go into the next block now. */
  datatype Readiness =
    | Ready   // includable now
    | Future  // may become includable later
    | Stale   // can never become includable: drop it

  /** What the pool does when a new transaction meets one already held for
      the same sender. */
  datatype Choice = InsertNew | RejectNew | ReplaceOld
}
