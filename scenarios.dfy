/** The behaviour the transaction pool's own tests expect, stated over the
    model with the tests' chain API: an account's index is the first byte of
    its key plus the block number, and `RawAddress::Index(i)` names one of the
    eight keyring accounts. The pool hands the readiness evaluator each
    sender's transactions in index order, so the runs below list them that
    way. */
module Scenarios {
  import opened Primitives
  import opened Api
  import opened Txpool
  import opened Transaction
  import opened Verifier
  import opened ReadyEvaluator

  /** The test keyring. */
  datatype Keyring = Alice | Bob | Charlie | Dave | Eve | Ferdie | One | Two

  /** The compact account index the tests give each keyring account. */
  function KeyringIndex(k: Keyring): AccountIndex
  {
    match k
    case Alice => 0
    case Bob => 1
    case Charlie => 2
    case Dave => 3
    case Eve => 4
    case Ferdie => 5
    case One => 6
    case Two => 7
  }

  /** Stand-ins for the keyring's public keys. Only the first byte is read by
      the test API. Alice's first byte is 0xd1 (209), the first byte of her
      real key, which is why the tests expect her next index to be 209; the
      rest of her key and the other accounts' keys are not the real ones. */
  function PublicKey(k: Keyring): AccountId
  {
    var first: byte := if k == Alice then 0xd1 else KeyringIndex(k) as byte;
    [first] + seq(31, _ => 0 as byte)
  }

  /** `number_of`: the block number truncated to 32 bits (`as u32`), 0 for a
      block named by hash. */
  function NumberOf(at: BlockId): (r: nat)
    ensures r <= MAX_INDEX
    ensures at.ByHash? ==> r == 0
    ensures at.Number? && at.number <= MAX_INDEX ==> r == at.number
  {
    match at
    case Number(n) => n % 0x1_0000_0000
    case ByHash(_) => 0
  }

  /** The test API's `index`: first key byte plus block number. The source
      adds them as `u32`, which panics on overflow; the tests never come near
      it (the sum is at most 255 + the block number, and the tests use blocks
      0 and 1), and the remainder below only keeps the value an `Index`. */
  function TestIndex(at: BlockId, account: AccountId): (r: Result<Index, ApiError>)
    ensures r.Ok?
    ensures account[0] as int + NumberOf(at) <= MAX_INDEX ==> r.value == account[0] as int + NumberOf(at)
    ensures at == GENESIS ==> r.value == account[0] as int
  {
    Ok((account[0] as int + NumberOf(at)) % 0x1_0000_0000)
  }

  /** The keyring account that index `j` in `0..8` stands for. */
  function KeyringAt(j: nat): Option<Keyring>
  {
    if j == 0 then Some(Alice) else if j == 1 then Some(Bob)
    else if j == 2 then Some(Charlie) else if j == 3 then Some(Dave)
    else if j == 4 then Some(Eve) else if j == 5 then Some(Ferdie)
    else if j == 6 then Some(One) else if j == 7 then Some(Two)
    else None
  }

  /** The test API's `lookup`: an id is itself; index `i` below 8 names the
      keyring account at `i + number % 8`, and no account past the eighth. */
  function TestLookup(at: BlockId, address: Address): (r: Result<Option<AccountId>, ApiError>)
    ensures r.Ok?
    ensures address.Id? ==> r.value == Some(address.id)
    ensures address.AccountIndexAddress? && address.accountIndex >= 8 ==> r.value.None?
    ensures forall k :: at == GENESIS && address == AccountIndexAddress(KeyringIndex(k)) ==> r.value == Some(PublicKey(k))
  {
    match address
    case Id(id) => Ok(Some(id))
    case AccountIndexAddress(i) =>
      if i >= 8 then Ok(None)
      else match KeyringAt(i + NumberOf(at) % 8)
        case Some(k) => Ok(Some(PublicKey(k)))
        case None => Ok(None)
  }

  const TEST_API: PolkadotApi := PolkadotApi(TestIndex, TestLookup)

  const GENESIS: BlockId := Number(0)

  /** A runtime for correctly signed test extrinsics: the check resolves the
      signer through the lookup and the signature always verifies. Encoding
      and hashing are stand-ins. */
  function TestCheck(uxt: UncheckedExtrinsic, lookup: Address -> Result<AccountId, string>): Result<CheckedExtrinsic, string>
  {
    match lookup(uxt.extrinsic.signed)
    case Ok(account) => Ok(CheckedExtrinsic(account, uxt.extrinsic.index, uxt.extrinsic.call))
    case Err(e) => Err(e)
  }

  const TEST_RUNTIME: Runtime := Runtime(_ => [], _ => seq(32, _ => 0 as byte), TestCheck)

  /** `uxt(who, nonce, use_id)`: a signed timestamp extrinsic from `who`,
      naming its signer by id or by compact index. */
  function Uxt(who: Keyring, nonce: Index, useId: bool): (r: UncheckedExtrinsic)
    ensures r.IsSigned() && r.extrinsic.index == nonce
    ensures TestLookup(GENESIS, r.extrinsic.signed) == Ok(Some(PublicKey(who)))
  {
    var signer := if useId then Id(PublicKey(who)) else AccountIndexAddress(KeyringIndex(who));
    UncheckedExtrinsic(Extrinsic(signer, nonce, Call([])), Some([1]))
  }

  /** Alice's extrinsics verify fully at genesis, by id and by index alike,
      with Alice as sender. */
  lemma AliceVerifies(nonce: Index, useId: bool)
    ensures var r := VerifyTransaction(TEST_API, GENESIS, TEST_RUNTIME, Uxt(Alice, nonce, useId));
      && r.Ok? && r.value.Sender() == Some(PublicKey(Alice))
      && r.value.Index() == nonce && r.value.IsFullyVerified()
  {
  }

  /** Alice, first seen, is expected to use index 209 at genesis. */
  lemma AliceExpectedAtGenesis()
    ensures ExpectedIndex(map[], TEST_API, GENESIS, PublicKey(Alice)) == 209
  {
  }

  /** Alice's transaction at genesis, verified. */
  function AliceTx(nonce: Index, useId: bool): (tx: VerifiedTransaction)
    ensures tx.Sender() == Some(PublicKey(Alice)) && tx.Index() == nonce && tx.IsFullyVerified()
  {
    AliceVerifies(nonce, useId);
    VerifyTransaction(TEST_API, GENESIS, TEST_RUNTIME, Uxt(Alice, nonce, useId)).value
  }

  /** Alice's transactions from index 209 on, in order, are all pending. */
  lemma {:induction false} ConsecutiveFromGenesisArePending(xts: seq<VerifiedTransaction>)
    requires forall i :: 0 <= i < |xts| ==> xts[i].Sender() == Some(PublicKey(Alice)) && xts[i].Index() == 209 + i
    ensures var run := EvaluateAll(map[], TEST_API, GENESIS, xts);
      (forall i :: 0 <= i < |xts| ==> run.readiness[i] == Ready) && ReadyOnes(xts, run.readiness) == xts
  {
    AliceExpectedAtGenesis();
    ConsecutiveIndicesAreReady(map[], TEST_API, GENESIS, xts, PublicKey(Alice), 209);
    ReadyOnesAreReady(xts, EvaluateAll(map[], TEST_API, GENESIS, xts).readiness);
  }

  /** Submitting index 209, or 209 and 210, makes all of them pending. */
  lemma SubmissionsArePending(useId: bool)
    ensures var run := EvaluateAll(map[], TEST_API, GENESIS, [AliceTx(209, useId)]);
      run.readiness == [Ready]
      && ReadyOnes([AliceTx(209, useId)], run.readiness) == [AliceTx(209, useId)]
    ensures var xts := [AliceTx(209, useId), AliceTx(210, useId)];
      var run := EvaluateAll(map[], TEST_API, GENESIS, xts);
      run.readiness == [Ready, Ready] && ReadyOnes(xts, run.readiness) == xts
  {
    var one := [AliceTx(209, useId)];
    ConsecutiveFromGenesisArePending(one);
    var two := [AliceTx(209, useId), AliceTx(210, useId)];
    ConsecutiveFromGenesisArePending(two);
  }

  /** An early index (208) is stale and is culled: nothing is pending. */
  lemma EarlyNonceIsCulled(useId: bool)
    ensures var run := EvaluateAll(map[], TEST_API, GENESIS, [AliceTx(208, useId)]);
      run.readiness == [Stale] && ReadyOnes([AliceTx(208, useId)], run.readiness) == []
  {
    AliceExpectedAtGenesis();
    assert [AliceTx(208, useId)][..0] == [];
  }

  /** An early index (208) ahead of the due one (209) is stale, and it drags
      the due one down with it: both are `Stale`, nothing is pending. */
  lemma EarlyNonceBlocksNext(useId: bool)
    ensures var xts := [AliceTx(208, useId), AliceTx(209, useId)];
      var run := EvaluateAll(map[], TEST_API, GENESIS, xts);
      run.readiness == [Stale, Stale] && ReadyOnes(xts, run.readiness) == []
  {
    AliceExpectedAtGenesis();
    var xts := [AliceTx(208, useId), AliceTx(209, useId)];
    StaleAlsoAdvances(map[], TEST_API, GENESIS, xts[0], xts[1], PublicKey(Alice), 209);
    var r := EvaluateAll(map[], TEST_API, GENESIS, xts).readiness;
    assert xts[..1][..0] == [];
    assert ReadyOnes(xts[..1], r[..1]) == [];
  }

  /** Mixing the two ways of addressing Alice changes nothing in the model:
      once verified, a transaction addressed by id and one addressed by index
      are both Alice's, and 209 then 210 are both `Ready`. */
  lemma MixedAddressingBothReady(firstById: bool)
    ensures var xts := [AliceTx(209, firstById), AliceTx(210, !firstById)];
      var run := EvaluateAll(map[], TEST_API, GENESIS, xts);
      run.readiness == [Ready, Ready] && ReadyOnes(xts, run.readiness) == xts
  {
    ConsecutiveFromGenesisArePending([AliceTx(209, firstById), AliceTx(210, !firstById)]);
  }

  /** A late index (210) alone waits in the future queue; once 209 arrives,
      both are pending. */
  lemma LateNonceIsQueued(useId: bool)
    ensures var run := EvaluateAll(map[], TEST_API, GENESIS, [AliceTx(210, useId)]);
      run.readiness == [Future] && ReadyOnes([AliceTx(210, useId)], run.readiness) == []
    ensures var xts := [AliceTx(209, useId), AliceTx(210, useId)];
      var run := EvaluateAll(map[], TEST_API, GENESIS, xts);
      run.readiness == [Ready, Ready] && ReadyOnes(xts, run.readiness) == xts
  {
    AliceExpectedAtGenesis();
    assert [AliceTx(210, useId)][..0] == [];
    SubmissionsArePending(useId);
  }

  /** The test `multiple_id_submission_should_work`, driven through the
      evaluator object: a fresh `Ready` at genesis finds 209 and 210 pending,
      and has asked the API about Alice and nobody else. */
  method MultipleSubmissionThroughEvaluator(useId: bool) returns (readiness: seq<Readiness>, pending: seq<VerifiedTransaction>)
    ensures readiness == [Ready, Ready]
    ensures pending == [AliceTx(209, useId), AliceTx(210, useId)]
  {
    var ready := new Ready.Create(GENESIS, TEST_API);
    var xts := [AliceTx(209, useId), AliceTx(210, useId)];
    readiness, pending := CheckReadiness(ready, xts);
    SubmissionsArePending(useId);
    assert pending == xts;
    assert readiness == [Ready, Ready];
    RunSendersAreKnown(map[], TEST_API, GENESIS, xts);
    assert xts[0].Sender().value == PublicKey(Alice);
    assert ready.knownNonces.Keys == {PublicKey(Alice)};
    assert PublicKey(Alice) in ready.queried;
  }
}
