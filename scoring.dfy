/** `Scoring`: the rules by which the pool orders, admits, scores and
    replaces the transactions it holds for one sender. */
module Scoring {
  import opened Primitives
  import opened Txpool
  import opened Transaction

  /** `compare`: transactions are ordered by their index. */
  function Compare(oldTx: VerifiedTransaction, other: VerifiedTransaction): (r: Ordering)
    ensures r == Less <==> oldTx.Index() < other.Index()
    ensures r == Equal <==> oldTx.Index() == other.Index()
    ensures r == Greater <==> oldTx.Index() > other.Index()
  {
    Cmp(oldTx.Index(), other.Index())
  }

  /** `compare` is a total order on indices: swapping the arguments reverses
      the answer, and "not greater" is transitive. */
  lemma CompareIsTotalOrder(a: VerifiedTransaction, b: VerifiedTransaction, c: VerifiedTransaction)
    ensures Compare(a, b) == Compare(b, a).Reverse()
    ensures Compare(a, b) != Greater && Compare(b, c) != Greater ==> Compare(a, c) != Greater
    ensures Compare(a, a) == Equal
  {
  }

  /** `choose`: a new transaction is rejected when the one already held is
      fully verified and has the same index; otherwise both are kept. The
      source asserts (and panics otherwise) that a fully verified old
      transaction is only ever compared with a fully verified new one. */
  function Choose(oldTx: VerifiedTransaction, newTx: VerifiedTransaction): (r: Choice)
    requires oldTx.IsFullyVerified() ==> newTx.IsFullyVerified()
    ensures r == RejectNew <==> oldTx.IsFullyVerified() && oldTx.Index() == newTx.Index()
    ensures r == InsertNew <==> !(oldTx.IsFullyVerified() && oldTx.Index() == newTx.Index())
    ensures r != ReplaceOld
  {
    if oldTx.IsFullyVerified() then
      if oldTx.Index() == newTx.Index() then RejectNew else InsertNew
    else
      InsertNew
  }

  /** `should_replace`: a transaction already held may be replaced exactly
      when it is not fully verified; the new transaction plays no part. */
  function ShouldReplace(oldTx: VerifiedTransaction, newTx: VerifiedTransaction): (r: bool)
    ensures r <==> ScoreOf(oldTx) == 0
  {
    !oldTx.IsFullyVerified()
  }

  /** The score `update_scores` gives one transaction: all fully verified
      transactions score the same (there are no fees), the others nothing. */
  function ScoreOf(tx: VerifiedTransaction): (r: Score)
    ensures r <= 1
    ensures r == 0 <==> !tx.IsFullyVerified()
  {
    if !tx.IsFullyVerified() then 0 else 1
  }

  /** `update_scores`: writes the score of `xts[i]` into `scores[i]` for every
      transaction and leaves the rest of `scores` alone. The slice must be at
      least as long as the transactions (indexing it otherwise panics). */
  method UpdateScores(xts: seq<VerifiedTransaction>, scores: array<Score>)
    requires |xts| <= scores.Length
    modifies scores
    ensures forall i :: 0 <= i < |xts| ==> scores[i] == ScoreOf(xts[i])
    ensures forall i :: |xts| <= i < scores.Length ==> scores[i] == old(scores[i])
  {
    for i := 0 to |xts|
      invariant forall j :: 0 <= j < i ==> scores[j] == ScoreOf(xts[j])
      invariant forall j :: i <= j < scores.Length ==> scores[j] == old(scores[j])
    {
      if !xts[i].IsFullyVerified() {
        scores[i] := 0;
      } else {
        scores[i] := 1;
      }
    }
  }

  /** Whatever the newcomer, a transaction may be replaced exactly when it
      is not fully verified, that is when it scores nothing; and it is never
      a reason to reject a newcomer. */
  lemma ReplaceableScoresNothing(oldTx: VerifiedTransaction, newTx: VerifiedTransaction, other: VerifiedTransaction)
    ensures ShouldReplace(oldTx, newTx) <==> !oldTx.IsFullyVerified()
    ensures ShouldReplace(oldTx, newTx) == ShouldReplace(oldTx, other)
    ensures ShouldReplace(oldTx, newTx) <==> ScoreOf(oldTx) == 0
    ensures ShouldReplace(oldTx, newTx) ==> Choose(oldTx, newTx) == InsertNew
  {
  }

  /** Transactions from one sender, as the verifier builds them, always meet
      the precondition of `choose`: a known sender means both are fully
      verified, an unknown one means the old one is not. */
  lemma SameSenderMeetsChoosePrecondition(oldTx: VerifiedTransaction, newTx: VerifiedTransaction)
    requires oldTx.WellFormed() && newTx.WellFormed()
    requires oldTx.Sender() == newTx.Sender()
    ensures oldTx.IsFullyVerified() ==> newTx.IsFullyVerified()
  {
  }

  /** A rejection only ever happens between transactions that `compare`
      puts level, and then the old one is not replaceable. */
  lemma RejectionMeansEqualOrder(oldTx: VerifiedTransaction, newTx: VerifiedTransaction)
    requires oldTx.IsFullyVerified() ==> newTx.IsFullyVerified()
    ensures Choose(oldTx, newTx) == RejectNew <==> !ShouldReplace(oldTx, newTx) && Compare(oldTx, newTx) == Equal
  {
  }
}
