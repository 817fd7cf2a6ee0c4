/** The history assembly of `getRecentTransactions` in lib/solana.ts: the
    live path lists recent signatures, fetches each signature's parsed
    transaction and classifies it, mapping a failed fetch to an `unknown`
    entry; the mock path returns a prefix of a fixed list. The network is
    replaced by its outcomes, given as inputs. */
module History {
  import opened Wrappers
  import opened Classifier

  /** One entry of the signature listing: the signature and its block time
      (`null` or absent for an entry not yet in a block). */
  datatype SigInfo = SigInfo(signature: string, blockTime: Option<int>)

  /** `TransactionInfo`: what the dashboard shows for one signature. */
  datatype TransactionInfo = TransactionInfo(
    signature: string,
    timestamp: Option<int>,
    kind: TxType,
    amount: Amount)

  /** What `getParsedTransaction` did for one signature: it threw, or it
      resolved to a transaction or to `null`. */
  datatype FetchOutcome = Failed | Fetched(tx: Option<Tx>)

  /** What listing the signatures did: it threw (this also covers building
      the connection and the public key), or it returned the list. */
  datatype SignatureListing = ListingFailed | Listed(signatures: seq<SigInfo>)

  /** The `limit` used when the caller passes none. */
  const DEFAULT_LIMIT := 10

  /** The message of the error `getRecentTransactions` throws. */
  const FETCH_TRANSACTIONS_ERROR := "Failed to fetch transactions"

  /** An entry that reports a direction reports a positive amount with it. */
  predicate WellFormed(e: TransactionInfo)
  {
    e.kind != Unknown ==> e.amount.Sol? && e.amount.value > 0.0
  }

  /** The callback of `signatures.map`: classify the fetched transaction, or
      fall back to `unknown`/`null` when the fetch threw. The signature and
      timestamp come from the listing either way. */
  function TransactionEntry(address: string, info: SigInfo, outcome: FetchOutcome): (r: TransactionInfo)
    ensures r.signature == info.signature && r.timestamp == info.blockTime
    ensures outcome.Failed? ==> r.kind == Unknown && r.amount == Null
    ensures outcome.Fetched? ==> r.kind == DetermineTransactionType(outcome.tx, address)
    ensures outcome.Fetched? ==> r.amount == ExtractTransactionAmount(outcome.tx, address)
    ensures WellFormed(r)
  {
    match outcome
    case Failed => TransactionInfo(info.signature, info.blockTime, Unknown, Null)
    case Fetched(tx) =>
      var kind := DetermineTransactionType(tx, address);
      var amount := ExtractTransactionAmount(tx, address);
      UnknownIffNoMovement(tx, address);
      TransactionInfo(info.signature, info.blockTime, kind, amount)
  }

  /** `Promise.all(signatures.map(...))`: one entry per signature, in the
      listing's order, entry `i` built from signature `i` and fetch `i`
      only, whatever order the fetches completed in. */
  function ClassifySignatures(address: string, signatures: seq<SigInfo>, fetches: seq<FetchOutcome>): (r: seq<TransactionInfo>)
    requires |fetches| == |signatures|
    ensures |r| == |signatures|
    ensures forall i :: 0 <= i < |r| ==> r[i] == TransactionEntry(address, signatures[i], fetches[i])
  {
    if |signatures| == 0 then []
    else [TransactionEntry(address, signatures[0], fetches[0])]
         + ClassifySignatures(address, signatures[1..], fetches[1..])
  }

  /** Fault isolation: changing what one fetch did changes that entry only. */
  lemma FetchFailureIsIsolated(address: string, signatures: seq<SigInfo>, fetches: seq<FetchOutcome>, k: nat, outcome: FetchOutcome)
    requires |fetches| == |signatures| && k < |fetches|
    ensures var before := ClassifySignatures(address, signatures, fetches);
            var after := ClassifySignatures(address, signatures, fetches[k := outcome]);
            forall j :: 0 <= j < |before| && j != k ==> after[j] == before[j]
  {
  }

  /** Classifying a listing in two parts and joining the results is the same
      as classifying it whole: the batch preserves order. */
  lemma ClassifySignaturesAppend(address: string, s1: seq<SigInfo>, f1: seq<FetchOutcome>, s2: seq<SigInfo>, f2: seq<FetchOutcome>)
    requires |f1| == |s1| && |f2| == |s2|
    ensures ClassifySignatures(address, s1 + s2, f1 + f2)
         == ClassifySignatures(address, s1, f1) + ClassifySignatures(address, s2, f2)
  {
  }

  /** Array.prototype.slice(0, end) for an integer `end`: a negative `end`
      counts back from the length; the result is a prefix of `s`. */
  function SliceTo<T>(s: seq<T>, end: int): (r: seq<T>)
    ensures |r| <= |s| && r == s[..|r|]
    ensures 0 <= end ==> |r| == if end < |s| then end else |s|
    ensures end < 0 ==> |r| == if |s| + end < 0 then 0 else |s| + end
  {
    var k := if end < 0 then (if |s| + end < 0 then 0 else |s| + end)
             else if end < |s| then end else |s|;
    s[..k]
  }

  /** The fixed demonstration list of mock mode, most recent first: entry
      `i` is `i + 1` hours older than `now`, and its signature is a fixed
      prefix followed by a random suffix (`suffix(i)`). */
  function MockEntries(now: int, suffix: nat -> string): (r: seq<TransactionInfo>)
    ensures |r| == 10
    ensures forall i :: 0 <= i < |r| ==> r[i].timestamp == Some(now - 3600 * (i + 1))
  {
    [ TransactionInfo("5J8W..." + suffix(0), Some(now - 3600), Incoming, Sol(5.25)),
      TransactionInfo("3mK9..." + suffix(1), Some(now - 7200), Outgoing, Sol(2.1)),
      TransactionInfo("8pL4..." + suffix(2), Some(now - 10800), Incoming, Sol(10.5)),
      TransactionInfo("1nM2..." + suffix(3), Some(now - 14400), Outgoing, Sol(3.75)),
      TransactionInfo("7qP6..." + suffix(4), Some(now - 18000), Incoming, Sol(8.333)),
      TransactionInfo("2rN5..." + suffix(5), Some(now - 21600), Incoming, Sol(15.0)),
      TransactionInfo("9sT8..." + suffix(6), Some(now - 25200), Outgoing, Sol(1.25)),
      TransactionInfo("4tU7..." + suffix(7), Some(now - 28800), Incoming, Sol(20.5)),
      TransactionInfo("6vW9..." + suffix(8), Some(now - 32400), Unknown, Null),
      TransactionInfo("5wX1..." + suffix(9), Some(now - 36000), Outgoing, Sol(0.5)) ]
  }

  /** The mock branch: `[...].slice(0, limit)`. Its entries are newest
      first, report a positive amount with every direction, and report no
      amount for `unknown`. */
  function MockTransactions(now: int, suffix: nat -> string, limit: int): (r: seq<TransactionInfo>)
    ensures 0 <= limit ==> |r| == if limit < 10 then limit else 10
    ensures limit < 0 ==> |r| == if limit < -10 then 0 else 10 + limit
    ensures forall i :: 0 <= i < |r| ==> r[i] == MockEntries(now, suffix)[i]
    ensures forall i, j :: 0 <= i < j < |r| ==>
      r[i].timestamp.Some? && r[j].timestamp.Some? && r[i].timestamp.value > r[j].timestamp.value
    ensures forall i :: 0 <= i < |r| ==> WellFormed(r[i]) && (r[i].kind == Unknown ==> r[i].amount == Null)
  {
    SliceTo(MockEntries(now, suffix), limit)
  }

  /** With the default limit, mock mode returns the whole fixed list. */
  lemma MockDefaultIsWholeList(now: int, suffix: nat -> string)
    ensures MockTransactions(now, suffix, DEFAULT_LIMIT) == MockEntries(now, suffix)
  {
  }

  /** `getRecentTransactions(address, limit)`; `useMockData` is the
      `NEXT_PUBLIC_USE_MOCK_DATA` switch, `limit` the optional argument
      (`None` when omitted), `listing` and `fetches` what the
      ledger service did (fetch `i` is the one issued for signature `i`),
      `now` and `suffix` the clock and the random suffixes of mock mode. */
  function GetRecentTransactions(
    useMockData: bool, address: string, limit: Option<int>,
    listing: SignatureListing, fetches: seq<FetchOutcome>,
    now: int, suffix: nat -> string): (r: Result<seq<TransactionInfo>, string>)
    requires !useMockData && listing.Listed? ==> |fetches| == |listing.signatures|
    ensures useMockData && limit.Some? ==> r == Ok(MockTransactions(now, suffix, limit.value))
    ensures useMockData && limit.None? ==> r == Ok(MockEntries(now, suffix))
    ensures !useMockData ==> (r.Err? <==> listing.ListingFailed?)
    ensures r.Err? ==> r.error == FETCH_TRANSACTIONS_ERROR
    ensures !useMockData && listing.Listed? ==>
      r.Ok? && |r.value| == |listing.signatures| &&
      forall i :: 0 <= i < |r.value| ==> r.value[i] == TransactionEntry(address, listing.signatures[i], fetches[i])
    ensures r.Ok? ==> forall i :: 0 <= i < |r.value| ==> WellFormed(r.value[i])
  {
    var n := match limit case Some(l) => l case None => DEFAULT_LIMIT;
    if useMockData then
      MockDefaultIsWholeList(now, suffix);
      Ok(MockTransactions(now, suffix, n))
    else match listing
      case ListingFailed => Err(FETCH_TRANSACTIONS_ERROR)
      case Listed(signatures) => Ok(ClassifySignatures(address, signatures, fetches))
  }
}
