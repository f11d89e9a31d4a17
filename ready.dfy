/** `Ready`: the readiness evaluator. It remembers, per sender, the index it
    expects that sender to use next, seeding the entry from the chain state
    the first time it sees the sender and advancing it after every
    transaction it classifies. */
module ReadyEvaluator {
  import opened Primitives
  import opened Api
  import opened Txpool
  import opened Transaction

  /** The entry `or_insert_with` seeds for a sender seen for the first time:
      the account's index at the evaluator's block, or the maximum index
      when the API fails. */
  function SeedIndex(api: PolkadotApi, at: BlockId, sender: AccountId): (r: Index)
    ensures api.index(at, sender).Ok? ==> r == api.index(at, sender).value
    ensures api.index(at, sender).Err? ==> r == MAX_INDEX
  {
    match api.index(at, sender)
    case Ok(i) => i
    case Err(_) => MAX_INDEX
  }

  /** The index expected next from `sender`, given the table so far. */
  function ExpectedIndex(known: map<AccountId, Index>, api: PolkadotApi, at: BlockId, sender: AccountId): Index
  {
    if sender in known then known[sender] else SeedIndex(api, at, sender)
  }

  /** The comparison of a transaction's index with the expected one. */
  function Classify(index: Index, expected: Index): (r: Readiness)
    ensures r == Future <==> index > expected
    ensures r == Ready <==> index == expected
    ensures r == Stale <==> index < expected
  {
    match Cmp(index, expected)
    case Greater => Future
    case Equal => Ready
    case Less => Stale
  }

  /** What one `is_ready` call answers and the table it leaves behind. */
  datatype Outcome = Outcome(readiness: Readiness, known: map<AccountId, Index>)

  /** One `is_ready` call as a function of the table before it. A
      transaction without a sender is `Future` and leaves the table alone;
      otherwise its index is classified against the expected one, and the
      sender's entry becomes the expected index plus one (saturating),
      whatever the classification was. */
  function Evaluate(known: map<AccountId, Index>, api: PolkadotApi, at: BlockId, xt: VerifiedTransaction): (r: Outcome)
    ensures xt.Sender().None? ==> r.readiness == Future && r.known == known
    ensures xt.Sender().Some? ==>
      var s := xt.Sender().value;
      && (r.readiness == Ready <==> xt.Index() == ExpectedIndex(known, api, at, s))
      && r.known.Keys == known.Keys + {s}
      && r.known[s] >= ExpectedIndex(known, api, at, s)
  {
    match xt.Sender()
    case None => Outcome(Future, known)
    case Some(s) =>
      var next := ExpectedIndex(known, api, at, s);
      Outcome(Classify(xt.Index(), next), known[s := SaturatingAdd(next, 1)])
  }

  /** The accounts one `is_ready` call asks the API about: the sender, on
      its first appearance only. */
  function Queried(known: map<AccountId, Index>, xt: VerifiedTransaction): seq<AccountId>
  {
    match xt.Sender()
    case Some(s) => if s in known then [] else [s]
    case None => []
  }

  /** The answers of a run of `is_ready` calls, in order, and the final table. */
  datatype Run = Run(readiness: seq<Readiness>, known: map<AccountId, Index>)

  /** `is_ready` applied to each of `xts` in turn, threading the table. */
  function EvaluateAll(known: map<AccountId, Index>, api: PolkadotApi, at: BlockId, xts: seq<VerifiedTransaction>): (r: Run)
    ensures |r.readiness| == |xts|
    ensures known.Keys <= r.known.Keys
    decreases |xts|
  {
    if xts == [] then Run([], known)
    else
      var before := EvaluateAll(known, api, at, xts[..|xts| - 1]);
      var step := Evaluate(before.known, api, at, xts[|xts| - 1]);
      Run(before.readiness + [step.readiness], step.known)
  }

  /** The transactions classified `Ready`, in order. */
  function ReadyOnes(xts: seq<VerifiedTransaction>, readiness: seq<Readiness>): seq<VerifiedTransaction>
    requires |xts| == |readiness|
    decreases |xts|
  {
    if xts == [] then []
    else
      var rest := ReadyOnes(xts[..|xts| - 1], readiness[..|xts| - 1]);
      if readiness[|xts| - 1] == Ready then rest + [xts[|xts| - 1]] else rest
  }

  /** The accounts that send some transaction of `xts`. */
  function SendersOf(xts: seq<VerifiedTransaction>): set<AccountId>
  {
    set i | 0 <= i < |xts| && xts[i].Sender().Some? :: xts[i].Sender().value
  }

  class Ready {
    const atBlock: BlockId
    const api: PolkadotApi
    /** The next index expected from each sender seen so far. */
    var knownNonces: map<AccountId, Index>
    /** The accounts whose index was asked of the API, in the order asked. */
    ghost var queried: seq<AccountId>

    /** Every entry of the table was seeded by exactly one API query. */
    ghost predicate Valid()
      reads this
    {
      && (forall a :: a in knownNonces <==> a in queried)
      && (forall i, j :: 0 <= i < j < |queried| ==> queried[i] != queried[j])
    }

    /** `Ready::create`: an evaluator at block `at` with an empty table. */
    constructor Create(at: BlockId, api: PolkadotApi)
      ensures Valid()
      ensures atBlock == at && this.api == api
      ensures knownNonces == map[] && queried == []
    {
      atBlock := at;
      this.api := api;
      knownNonces := map[];
      queried := [];
    }

    /** `clone`: a fresh evaluator at the same block with a copy of the table. */
    method Clone() returns (c: Ready)
      requires Valid()
      ensures fresh(c) && c.Valid()
      ensures c.atBlock == atBlock && c.api == api
      ensures c.knownNonces == knownNonces && c.queried == queried
    {
      c := new Ready.Create(atBlock, api);
      c.knownNonces := knownNonces;
      c.queried := queried;
    }

    /** `is_ready`: classifies `xt`, seeding the sender's entry on first
        sight and then advancing it by one. */
    method IsReady(xt: VerifiedTransaction) returns (r: Readiness)
      requires Valid()
      modifies this
      ensures Valid()
      ensures Outcome(r, knownNonces) == Evaluate(old(knownNonces), api, atBlock, xt)
      ensures queried == old(queried) + Queried(old(knownNonces), xt)
    {
      var sender;
      match xt.Sender() {
        case None => return Future;
        case Some(s) => sender := s;
      }
      if sender !in knownNonces {
        knownNonces := knownNonces[sender := SeedIndex(api, atBlock, sender)];
        queried := queried + [sender];
      }
      var nextIndex := knownNonces[sender];
      r := Classify(xt.Index(), nextIndex);
      knownNonces := knownNonces[sender := SaturatingAdd(nextIndex, 1)];
    }
  }

  /** The caller's pass over the pool's pending transactions (the pool's
      `cull_and_get_pending` asks `is_ready` of each in turn): the answer for
      every transaction and the ones found ready. */
  method CheckReadiness(ready: Ready, xts: seq<VerifiedTransaction>) returns (readiness: seq<Readiness>, pending: seq<VerifiedTransaction>)
    requires ready.Valid()
    modifies ready
    ensures ready.Valid()
    ensures Run(readiness, ready.knownNonces) == EvaluateAll(old(ready.knownNonces), ready.api, ready.atBlock, xts)
    ensures pending == ReadyOnes(xts, readiness)
  {
    readiness, pending := [], [];
    var i := 0;
    while i < |xts|
      invariant 0 <= i <= |xts|
      invariant ready.Valid()
      invariant Run(readiness, ready.knownNonces) == EvaluateAll(old(ready.knownNonces), ready.api, ready.atBlock, xts[..i])
      invariant pending == ReadyOnes(xts[..i], readiness)
    {
      var r := ready.IsReady(xts[i]);
      assert xts[..i + 1][..i] == xts[..i];
      assert (readiness + [r])[..i] == readiness;
      readiness := readiness + [r];
      if r == Ready {
        pending := pending + [xts[i]];
      }
      i := i + 1;
    }
    assert xts[..i] == xts;
  }

  /** A transaction without a sender is always `Future` and changes nothing. */
  lemma NoSenderIsFuture(known: map<AccountId, Index>, api: PolkadotApi, at: BlockId, xt: VerifiedTransaction)
    requires xt.Sender().None?
    ensures Evaluate(known, api, at, xt) == Outcome(Future, known)
    ensures Queried(known, xt) == []
  {
  }

  /** For a sender whose expected index is `n`, the answer is exact and the
      entry becomes `n + 1`, saturating at the maximum; every other sender's
      entry is as it was. */
  lemma SenderEntryAdvances(known: map<AccountId, Index>, api: PolkadotApi, at: BlockId, xt: VerifiedTransaction, s: AccountId, n: Index)
    requires xt.Sender() == Some(s)
    requires ExpectedIndex(known, api, at, s) == n
    ensures var o := Evaluate(known, api, at, xt);
      && (o.readiness == Future <==> xt.Index() > n)
      && (o.readiness == Ready <==> xt.Index() == n)
      && (o.readiness == Stale <==> xt.Index() < n)
      && o.known.Keys == known.Keys + {s}
      && o.known[s] == (if n < MAX_INDEX then n + 1 else MAX_INDEX)
      && (forall t :: t in known && t != s ==> o.known[t] == known[t])
  {
  }

  /** A stored entry is used as it is: the API and block play no part any
      more, which is why a sender's index is asked for only once. */
  lemma StoredEntryIgnoresApi(known: map<AccountId, Index>, api1: PolkadotApi, at1: BlockId, api2: PolkadotApi, at2: BlockId, s: AccountId)
    requires s in known
    ensures ExpectedIndex(known, api1, at1, s) == known[s]
    ensures ExpectedIndex(known, api1, at1, s) == ExpectedIndex(known, api2, at2, s)
  {
  }

  /** If the API cannot tell a new sender's index, the entry is seeded with
      the maximum: every transaction of that sender is `Stale` except one
      that carries the maximum index itself. */
  lemma ApiFailureSeedsMaximum(known: map<AccountId, Index>, api: PolkadotApi, at: BlockId, xt: VerifiedTransaction, s: AccountId)
    requires xt.Sender() == Some(s) && s !in known
    requires api.index(at, s).Err?
    ensures Evaluate(known, api, at, xt).readiness == (if xt.Index() == MAX_INDEX then Ready else Stale)
    ensures Evaluate(known, api, at, xt).known[s] == MAX_INDEX
  {
  }

  /** The entry advances on every answer, `Future` included: transactions of
      one sender met out of order (`n + 1` before `n`) are `Future`, then
      `Stale`, so the caller has to present them in index order. */
  lemma OutOfOrderIndicesAreStale(known: map<AccountId, Index>, api: PolkadotApi, at: BlockId, a: VerifiedTransaction, b: VerifiedTransaction, s: AccountId, n: Index)
    requires a.Sender() == Some(s) && b.Sender() == Some(s)
    requires ExpectedIndex(known, api, at, s) == n
    requires a.Index() == n + 1 && b.Index() == n
    ensures EvaluateAll(known, api, at, [a, b]).readiness == [Future, Stale]
  {
    assert [a, b][..1] == [a];
    assert [a][..0] == [];
    var first := Evaluate(known, api, at, a);
    assert EvaluateAll(known, api, at, [a]) == Run([first.readiness], first.known);
    assert ExpectedIndex(first.known, api, at, s) == first.known[s];
  }

  /** The entry advances on a `Stale` answer too: a transaction that was
      stale moves the expectation past the index that was due, so the
      correctly numbered transaction right behind it is `Stale` as well
      (unless the entry was already at the saturated maximum). */
  lemma StaleAlsoAdvances(known: map<AccountId, Index>, api: PolkadotApi, at: BlockId, a: VerifiedTransaction, b: VerifiedTransaction, s: AccountId, n: Index)
    requires a.Sender() == Some(s) && b.Sender() == Some(s)
    requires ExpectedIndex(known, api, at, s) == n
    requires a.Index() < n && b.Index() == n
    ensures EvaluateAll(known, api, at, [a, b]).readiness == [Stale, if n < MAX_INDEX then Stale else Ready]
  {
    assert [a, b][..1] == [a];
    assert [a][..0] == [];
    var first := Evaluate(known, api, at, a);
    assert EvaluateAll(known, api, at, [a]) == Run([first.readiness], first.known);
    assert ExpectedIndex(first.known, api, at, s) == first.known[s];
  }

  /** The senders of a run with one transaction more: those of the shorter
      run, plus the new transaction's sender if it has one. */
  lemma SendersOfSnoc(init: seq<VerifiedTransaction>, last: VerifiedTransaction)
    ensures SendersOf(init + [last]) == SendersOf(init) + (if last.Sender().Some? then {last.Sender().value} else {})
  {
    var xts := init + [last];
    forall t | t in SendersOf(xts)
      ensures t in SendersOf(init) + (if last.Sender().Some? then {last.Sender().value} else {})
    {
      var i :| 0 <= i < |xts| && xts[i].Sender().Some? && xts[i].Sender().value == t;
      if i < |init| {
        assert init[i] == xts[i];
      }
    }
    forall t | t in SendersOf(init)
      ensures t in SendersOf(xts)
    {
      var i :| 0 <= i < |init| && init[i].Sender().Some? && init[i].Sender().value == t;
      assert xts[i] == init[i];
    }
    if last.Sender().Some? {
      assert xts[|xts| - 1] == last;
    }
  }

  /** The table after a run holds the entries it started with plus every
      sender of the run; the other entries are untouched. */
  lemma {:induction false} RunSendersAreKnown(known: map<AccountId, Index>, api: PolkadotApi, at: BlockId, xts: seq<VerifiedTransaction>)
    ensures EvaluateAll(known, api, at, xts).known.Keys == known.Keys + SendersOf(xts)
    ensures forall t :: t in known && t !in SendersOf(xts) ==> EvaluateAll(known, api, at, xts).known[t] == known[t]
    decreases |xts|
  {
    if xts != [] {
      var init := xts[..|xts| - 1];
      RunSendersAreKnown(known, api, at, init);
      var last := xts[|xts| - 1];
      assert xts == init + [last];
      SendersOfSnoc(init, last);
    }
  }

  /** Running `is_ready` in order over indices `n, n+1, ..., n+k` of one
      sender whose expected index is `n` finds every one of them `Ready`, and
      leaves the entry just past the last. */
  lemma {:induction false} ConsecutiveIndicesAreReady(known: map<AccountId, Index>, api: PolkadotApi, at: BlockId, xts: seq<VerifiedTransaction>, s: AccountId, n: Index)
    requires ExpectedIndex(known, api, at, s) == n
    requires forall i :: 0 <= i < |xts| ==> xts[i].Sender() == Some(s) && xts[i].Index() == n + i
    ensures forall i :: 0 <= i < |xts| ==> EvaluateAll(known, api, at, xts).readiness[i] == Ready
    ensures xts != [] ==> s in EvaluateAll(known, api, at, xts).known
    ensures xts != [] ==> EvaluateAll(known, api, at, xts).known[s] == SaturatingAdd(n + |xts| - 1, 1)
    decreases |xts|
  {
    if xts != [] {
      var init := xts[..|xts| - 1];
      var k := |init|;
      ConsecutiveIndicesAreReady(known, api, at, init, s, n);
      var before := EvaluateAll(known, api, at, init);
      assert xts[k].Index() == n + k;
      assert ExpectedIndex(before.known, api, at, s) == n + k by {
        if k > 0 {
          assert init[k - 1] == xts[k - 1];
          assert n + k - 1 < MAX_INDEX;
        }
      }
    }
  }

  /** An evaluator whose entry for a sender has reached the maximum keeps
      answering `Ready` for the maximum index: saturation does not move the
      entry past it. */
  lemma SaturatedEntryStaysReady(known: map<AccountId, Index>, api: PolkadotApi, at: BlockId, a: VerifiedTransaction, b: VerifiedTransaction, s: AccountId)
    requires a.Sender() == Some(s) && b.Sender() == Some(s)
    requires ExpectedIndex(known, api, at, s) == MAX_INDEX
    requires a.Index() == MAX_INDEX && b.Index() == MAX_INDEX
    ensures EvaluateAll(known, api, at, [a, b]).readiness == [Ready, Ready]
  {
    assert [a, b][..1] == [a];
    assert [a][..0] == [];
    var first := Evaluate(known, api, at, a);
    assert EvaluateAll(known, api, at, [a]) == Run([first.readiness], first.known);
    assert ExpectedIndex(first.known, api, at, s) == first.known[s];
  }
  /** A well-formed transaction that is not fully verified (its account was
      not found at verification) has no sender, so it is always `Future`. */
  lemma PartialTransactionIsFuture(known: map<AccountId, Index>, api: PolkadotApi, at: BlockId, xt: VerifiedTransaction)
    requires xt.WellFormed() && !xt.IsFullyVerified()
    ensures Evaluate(known, api, at, xt) == Outcome(Future, known)
  {
    NoSenderIsFuture(known, api, at, xt);
  }

  /** Every transaction found ready appears in `xts` with the answer `Ready`. */
  lemma {:induction false} ReadyOnesComeFromReady(xts: seq<VerifiedTransaction>, readiness: seq<Readiness>)
    requires |xts| == |readiness|
    ensures |ReadyOnes(xts, readiness)| <= |xts|
    ensures forall tx :: tx in ReadyOnes(xts, readiness) ==> exists i :: 0 <= i < |xts| && xts[i] == tx && readiness[i] == Ready
    decreases |xts|
  {
    if xts != [] {
      var n := |xts| - 1;
      var init, rinit := xts[..n], readiness[..n];
      ReadyOnesComeFromReady(init, rinit);
      var rest := ReadyOnes(init, rinit);
      assert ReadyOnes(xts, readiness) == if readiness[n] == Ready then rest + [xts[n]] else rest;
      forall tx | tx in ReadyOnes(xts, readiness)
        ensures exists i :: 0 <= i < |xts| && xts[i] == tx && readiness[i] == Ready
      {
        if tx in rest {
          var i :| 0 <= i < |init| && init[i] == tx && rinit[i] == Ready;
          assert xts[i] == tx && readiness[i] == Ready;
        } else {
          assert xts[n] == tx && readiness[n] == Ready;
        }
      }
    }
  }

  /** Every transaction answered `Ready` is among the ones found ready. */
  lemma {:induction false} ReadyAnswersArePending(xts: seq<VerifiedTransaction>, readiness: seq<Readiness>)
    requires |xts| == |readiness|
    ensures forall i :: 0 <= i < |xts| && readiness[i] == Ready ==> xts[i] in ReadyOnes(xts, readiness)
    decreases |xts|
  {
    if xts != [] {
      var n := |xts| - 1;
      var init, rinit := xts[..n], readiness[..n];
      ReadyAnswersArePending(init, rinit);
      var rest := ReadyOnes(init, rinit);
      assert ReadyOnes(xts, readiness) == if readiness[n] == Ready then rest + [xts[n]] else rest;
      forall i | 0 <= i < |xts| && readiness[i] == Ready
        ensures xts[i] in ReadyOnes(xts, readiness)
      {
        if i < n {
          assert init[i] == xts[i] && rinit[i] == readiness[i];
        }
      }
    }
  }

  /** When every answer is `Ready`, the transactions found ready are all of
      `xts`, in order. */
  lemma {:induction false} AllReadyKeepsAll(xts: seq<VerifiedTransaction>, readiness: seq<Readiness>)
    requires |xts| == |readiness|
    requires forall i :: 0 <= i < |xts| ==> readiness[i] == Ready
    ensures ReadyOnes(xts, readiness) == xts
    decreases |xts|
  {
    if xts != [] {
      var n := |xts| - 1;
      var init, rinit := xts[..n], readiness[..n];
      assert forall i :: 0 <= i < |init| ==> rinit[i] == readiness[i];
      AllReadyKeepsAll(init, rinit);
      assert xts == init + [xts[n]];
    }
  }

  /** The transactions found ready are exactly the ones classified `Ready`:
      each of them appears in `xts` with the answer `Ready`, and each answer
      `Ready` contributes its transaction. */
  lemma {:induction false} ReadyOnesAreReady(xts: seq<VerifiedTransaction>, readiness: seq<Readiness>)
    requires |xts| == |readiness|
    ensures |ReadyOnes(xts, readiness)| <= |xts|
    ensures forall tx :: tx in ReadyOnes(xts, readiness) ==> exists i :: 0 <= i < |xts| && xts[i] == tx && readiness[i] == Ready
    ensures forall i :: 0 <= i < |xts| && readiness[i] == Ready ==> xts[i] in ReadyOnes(xts, readiness)
    ensures (forall i :: 0 <= i < |xts| ==> readiness[i] == Ready) ==> ReadyOnes(xts, readiness) == xts
  {
    ReadyOnesComeFromReady(xts, readiness);
    ReadyAnswersArePending(xts, readiness);
    if forall i :: 0 <= i < |xts| ==> readiness[i] == Ready {
      AllReadyKeepsAll(xts, readiness);
    }
  }
}
