/** The balance-difference classifier of lib/solana.ts: given one parsed
    ledger transaction (possibly null, possibly without metadata) and the
    watched address, decide the direction of value flow for that address
    and how many SOL moved. */
module Classifier {
  import opened Wrappers
  import opened Sequences

  /** Lamports in one SOL: the fixed divisor from smallest unit to display unit. */
  const LAMPORTS_PER_SOL: int := 1000000000

  /** `tx.meta`: balances of every account, before and after, in lamports,
      positionally paired with the transaction's account keys. */
  datatype Meta = Meta(preBalances: seq<int>, postBalances: seq<int>)

  /** A parsed transaction: its metadata (may be missing) and the account
      keys of its message, each in base58 form. */
  datatype Tx = Tx(meta: Option<Meta>, accountKeys: seq<string>)

  datatype TxType = Incoming | Outgoing | Unknown

  /** The JavaScript value `number | null` the amount extractor returns:
      `null`, a number of SOL, or `NaN` (what arithmetic on an `undefined`
      array element yields). */
  datatype Amount = Null | Sol(value: real) | NaN

  /** `s[i]` in JavaScript: `undefined` (None) outside the array. */
  function ElementAt(s: seq<int>, i: int): (r: Option<int>)
    ensures r.Some? <==> 0 <= i < |s|
    ensures r.Some? ==> r.value == s[i]
  {
    if 0 <= i < |s| then Some(s[i]) else None
  }

  /** JavaScript `a > b` where either side may be `undefined`: false then. */
  predicate GreaterThan(a: Option<int>, b: Option<int>)
  {
    a.Some? && b.Some? && a.value > b.value
  }

  function Abs(x: int): (r: nat)
    ensures r == x || r == -x
  {
    if x < 0 then -x else x
  }

  /** The account snapshot in `tx` has a first occurrence of `address` at `i`
      (the transaction and its metadata are present). */
  ghost predicate Watches(tx: Option<Tx>, address: string, i: int)
  {
    tx.Some? && tx.value.meta.Some? && IsFirstIndex(tx.value.accountKeys, address, i)
  }

  /** Both balance arrays have an entry at `i`. */
  ghost predicate HasBalancesAt(tx: Tx, i: int)
    requires tx.meta.Some?
  {
    0 <= i < |tx.meta.value.preBalances| && 0 <= i < |tx.meta.value.postBalances|
  }

  /** post − pre at position `i`, in lamports. */
  ghost function Delta(tx: Tx, i: int): int
    requires tx.meta.Some? && HasBalancesAt(tx, i)
  {
    tx.meta.value.postBalances[i] - tx.meta.value.preBalances[i]
  }

  /** Reference meaning of a lamport change: its sign. */
  function DirectionOf(delta: int): (r: TxType)
    ensures r == Incoming <==> delta > 0
    ensures r == Outgoing <==> delta < 0
    ensures r == Unknown <==> delta == 0
  {
    if delta > 0 then Incoming else if delta < 0 then Outgoing else Unknown
  }

  /** Reference meaning of an amount: the magnitude of the change, in SOL. */
  function SolOf(delta: int): (r: real)
    ensures r >= 0.0
    ensures r == 0.0 <==> delta == 0
  {
    (Abs(delta) as real) / (LAMPORTS_PER_SOL as real)
  }

  /** `determineTransactionType(tx, address)`. */
  function DetermineTransactionType(tx: Option<Tx>, address: string): (r: TxType)
    ensures tx.None? || tx.value.meta.None? ==> r == Unknown
    ensures tx.Some? && address !in tx.value.accountKeys ==> r == Unknown
  {
    if tx.None? || tx.value.meta.None? then Unknown
    else
      var meta := tx.value.meta.value;
      var addressIndex := FindIndex(tx.value.accountKeys, address);
      if addressIndex == -1 then Unknown
      else
        var preBalance := ElementAt(meta.preBalances, addressIndex);
        var postBalance := ElementAt(meta.postBalances, addressIndex);
        if GreaterThan(postBalance, preBalance) then Incoming
        else if GreaterThan(preBalance, postBalance) then Outgoing
        else Unknown
  }

  /** `extractTransactionAmount(tx, address)`. */
  function ExtractTransactionAmount(tx: Option<Tx>, address: string): (r: Amount)
    ensures r.Null? <==> tx.None? || tx.value.meta.None? || address !in tx.value.accountKeys
    ensures r.Sol? ==> r.value >= 0.0
  {
    if tx.None? || tx.value.meta.None? then Null
    else
      var meta := tx.value.meta.value;
      var addressIndex := FindIndex(tx.value.accountKeys, address);
      if addressIndex == -1 then Null
      else
        var preBalance := ElementAt(meta.preBalances, addressIndex);
        var postBalance := ElementAt(meta.postBalances, addressIndex);
        if preBalance.None? || postBalance.None? then NaN
        else Sol(SolOf(postBalance.value - preBalance.value))
  }

  /** A null transaction, or one without metadata, is unclassified. */
  lemma NoMetaIsUnclassified(tx: Option<Tx>, address: string)
    requires tx.None? || tx.value.meta.None?
    ensures DetermineTransactionType(tx, address) == Unknown
    ensures ExtractTransactionAmount(tx, address) == Null
  {
  }

  /** An address that is not an account key of the transaction is unclassified. */
  lemma AbsentAddressIsUnclassified(tx: Tx, address: string)
    requires address !in tx.accountKeys
    ensures DetermineTransactionType(Some(tx), address) == Unknown
    ensures ExtractTransactionAmount(Some(tx), address) == Null
  {
  }

  /** When the first occurrence of the address has both balances, the
      direction is the sign of post − pre there and the amount is its
      magnitude in SOL; both functions read that same position. */
  lemma ClassifiedBySignAtFirstIndex(tx: Option<Tx>, address: string, i: int)
    requires Watches(tx, address, i) && HasBalancesAt(tx.value, i)
    ensures DetermineTransactionType(tx, address) == DirectionOf(Delta(tx.value, i))
    ensures ExtractTransactionAmount(tx, address) == Sol(SolOf(Delta(tx.value, i)))
  {
  }

  /** The code does not check the balance arrays against the key list: a
      first occurrence past the end of either array gives type `unknown`
      and amount `NaN`. */
  lemma MissingBalanceGivesNaN(tx: Option<Tx>, address: string, i: int)
    requires Watches(tx, address, i) && !HasBalancesAt(tx.value, i)
    ensures DetermineTransactionType(tx, address) == Unknown
    ensures ExtractTransactionAmount(tx, address) == NaN
  {
  }

  /** A classified transfer always reports a strictly positive amount. */
  lemma DirectionImpliesPositiveAmount(tx: Option<Tx>, address: string)
    requires DetermineTransactionType(tx, address) != Unknown
    ensures ExtractTransactionAmount(tx, address).Sol?
    ensures ExtractTransactionAmount(tx, address).value > 0.0
  {
  }

  /** `unknown` arises exactly when the amount is null, NaN, or zero. */
  lemma UnknownIffNoMovement(tx: Option<Tx>, address: string)
    ensures DetermineTransactionType(tx, address) == Unknown <==>
      ExtractTransactionAmount(tx, address) in {Null, NaN, Sol(0.0)}
  {
  }

  /** Only the first occurrence of the address matters: two transactions
      with the same keys whose balances agree at that position (or are
      missing there in both) classify alike, whatever their balances at
      later occurrences or at any other account. */
  lemma OnlyFirstOccurrenceMatters(m1: Meta, m2: Meta, keys: seq<string>, address: string, i: int)
    requires IsFirstIndex(keys, address, i)
    requires ElementAt(m1.preBalances, i) == ElementAt(m2.preBalances, i)
    requires ElementAt(m1.postBalances, i) == ElementAt(m2.postBalances, i)
    ensures DetermineTransactionType(Some(Tx(Some(m1), keys)), address)
         == DetermineTransactionType(Some(Tx(Some(m2), keys)), address)
    ensures ExtractTransactionAmount(Some(Tx(Some(m1), keys)), address)
         == ExtractTransactionAmount(Some(Tx(Some(m2), keys)), address)
  {
  }

  /** Scenarios: W gains 50 lamports, X loses 50, Z is not involved, and a
      zero change at a matching key gives `unknown` with amount 0 (not null). */
  lemma Scenarios()
    ensures var tx := Some(Tx(Some(Meta([100, 50], [150, 0])), ["W", "X"]));
      && DetermineTransactionType(tx, "W") == Incoming
      && ExtractTransactionAmount(tx, "W") == Sol(50.0 / 1000000000.0)
      && DetermineTransactionType(tx, "X") == Outgoing
      && ExtractTransactionAmount(tx, "X") == Sol(50.0 / 1000000000.0)
      && DetermineTransactionType(tx, "Z") == Unknown
      && ExtractTransactionAmount(tx, "Z") == Null
    ensures var tx := Some(Tx(Some(Meta([100], [100])), ["W"]));
      && DetermineTransactionType(tx, "W") == Unknown
      && ExtractTransactionAmount(tx, "W") == Sol(0.0)
  {
  }
}
