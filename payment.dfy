/** `createSolanaPaymentRequest` of lib/solana.ts: the Solana Pay URI for an
    address and an optional amount, and a reader of such URIs against which
    it is checked. */
module PaymentRequest {
  import opened Wrappers
  import opened Sequences

  /** A JavaScript number as far as this decision can tell them apart. */
  datatype JsNumber = Finite(value: real) | NaN | Infinity | NegativeInfinity

  const SCHEME := "solana:"
  const AMOUNT_QUERY := "?amount="

  /** The request carries an amount: the number is finite and positive. */
  predicate HasAmount(amount: JsNumber)
  {
    amount.Finite? && amount.value > 0.0
  }

  /** `createSolanaPaymentRequest(address, amount)`; `encode` stands for
      `encodeURIComponent` applied to the number's string form. */
  function CreateSolanaPaymentRequest(address: string, amount: JsNumber, encode: real -> string): (r: string)
    ensures |SCHEME + address| <= |r| && r[..|SCHEME + address|] == SCHEME + address
    ensures !HasAmount(amount) ==> |r| == |SCHEME + address|
    ensures HasAmount(amount) ==> r[|SCHEME + address|..] == AMOUNT_QUERY + encode(amount.value)
  {
    if !amount.Finite? || amount.value <= 0.0 then SCHEME + address
    else SCHEME + address + AMOUNT_QUERY + encode(amount.value)
  }

  /** A payment request as read back: the recipient, and the encoded amount
      if the URI has one. */
  datatype ParsedRequest = ParsedRequest(recipient: string, amount: Option<string>)

  /** Reads a URI of the two shapes `createSolanaPaymentRequest` produces. */
  function ParsePaymentRequest(uri: string): (r: Option<ParsedRequest>)
    ensures r.Some? ==> |SCHEME| <= |uri| && uri[..|SCHEME|] == SCHEME
    ensures r.Some? ==> '?' !in r.value.recipient
  {
    if |uri| < |SCHEME| || uri[..|SCHEME|] != SCHEME then None
    else ParseTarget(uri[|SCHEME|..])
  }

  /** Reads what follows the scheme: the recipient up to the first '?',
      then an optional `?amount=` query. */
  function ParseTarget(rest: string): (r: Option<ParsedRequest>)
    ensures r.Some? ==> '?' !in r.value.recipient
  {
    var q := FindIndex(rest, '?');
    if q == -1 then Some(ParsedRequest(rest, None))
    else
      var query := rest[q..];
      if |AMOUNT_QUERY| <= |query| && query[..|AMOUNT_QUERY|] == AMOUNT_QUERY
      then Some(ParsedRequest(rest[..q], Some(query[|AMOUNT_QUERY|..])))
      else None
  }

  /** The scheme is stripped and the rest read on its own. */
  lemma ParseAfterScheme(rest: string)
    ensures ParsePaymentRequest(SCHEME + rest) == ParseTarget(rest)
  {
  }

  /** An address followed by an amount query reads back as both. */
  lemma ParseTargetWithAmount(address: string, encoded: string)
    requires '?' !in address
    ensures ParseTarget(address + AMOUNT_QUERY + encoded) == Some(ParsedRequest(address, Some(encoded)))
  {
    var tail := AMOUNT_QUERY + encoded;
    var rest := address + tail;
    assert address + AMOUNT_QUERY + encoded == rest;
    FindIndexAfterPrefix(address, tail, '?');
    assert rest[..|address|] == address;
    assert rest[|address|..] == tail;
    assert tail[..|AMOUNT_QUERY|] == AMOUNT_QUERY;
    assert tail[|AMOUNT_QUERY|..] == encoded;
  }

  /** Reading a created request gives back the address and, exactly when
      the amount is finite and positive, its encoding. Base58 addresses
      contain no '?'. */
  lemma ParseCreateRoundTrip(address: string, amount: JsNumber, encode: real -> string)
    requires '?' !in address
    ensures ParsePaymentRequest(CreateSolanaPaymentRequest(address, amount, encode))
         == Some(ParsedRequest(address, if HasAmount(amount) then Some(encode(amount.value)) else None))
  {
    if HasAmount(amount) {
      var encoded := encode(amount.value);
      assert CreateSolanaPaymentRequest(address, amount, encode) == SCHEME + (address + AMOUNT_QUERY + encoded);
      ParseAfterScheme(address + AMOUNT_QUERY + encoded);
      ParseTargetWithAmount(address, encoded);
    } else {
      ParseAfterScheme(address);
    }
  }

  /** Examples: no amount, a positive amount, a negative one, a non-finite one. */
  lemma Scenarios(encode: real -> string)
    requires encode(1.5) == "1.5"
    ensures CreateSolanaPaymentRequest("ADDR", Finite(1.5), encode) == "solana:ADDR?amount=1.5"
    ensures CreateSolanaPaymentRequest("ADDR", Finite(0.0), encode) == "solana:ADDR"
    ensures CreateSolanaPaymentRequest("ADDR", Finite(-1.0), encode) == "solana:ADDR"
    ensures CreateSolanaPaymentRequest("ADDR", NaN, encode) == "solana:ADDR"
  {
  }
}
