# Merchant dashboard core: transaction classification and history assembly

This project models the logic of `lib/solana.ts` in a merchant dashboard
that watches one Solana address. It covers four things:

- **Classifier** (`classifier.dfy`). `determineTransactionType` and
  `extractTransactionAmount` take a parsed transaction, which may be null
  or lack `meta`, plus the watched address. Each finds the first account
  key equal to the address. The first compares `postBalances` with
  `preBalances` at that index to return `incoming`, `outgoing` or
  `unknown`. The second returns `|post − pre| / LAMPORTS_PER_SOL` or `null`.
- **History assembly** (`history.dfy`). `getRecentTransactions` builds one
  `TransactionInfo` per listed signature, in listing order. A detail fetch
  that throws gives an `unknown`/`null` entry. A failed signature listing
  makes the whole call fail with `Failed to fetch transactions`. In mock
  mode the call returns `slice(0, limit)` of a fixed ten-entry list.
- **Payment request** (`payment.dfy`). `createSolanaPaymentRequest` returns
  `solana:<address>`, plus `?amount=<encoded>` only when the amount is
  finite and positive. `ParsePaymentRequest` reads such URIs back, and
  `ParseCreateRoundTrip` proves it recovers the address and, when present,
  the encoded amount.
- `wrappers.dfy` holds `Option` and `Result`; `sequences.dfy` holds the
  first-index search shared by the key lookup and the URI reader.

All of it is functions over values and lemmas, like the source, which has
no mutable state. The network is replaced by its outcomes, which are
inputs:

- a `SignatureListing`: the listing threw, or it returned the list;
- one `FetchOutcome` per signature: the fetch threw, or it returned a
  transaction or `null`.

Fetch `i` is the one issued for signature `i`. The mock/live switch
`NEXT_PUBLIC_USE_MOCK_DATA` is a parameter. So are the mock mode's clock
(`now`) and its random signature suffixes (`suffix(i)`). How the amount is
turned into a URI string (`encodeURIComponent` of the number) is a
function parameter, `encode`.

## Edge-case behaviour

The code handles these cases as follows:

- **Zero change.** When the watched key is found but its balance did not
  change, the code returns type `unknown` with amount `0`, not `null`.
  See `Classifier.Scenarios` and `Classifier.UnknownIffNoMovement`.
- **Balance arrays shorter than the key list.** The code does not check
  this case (`lib/solana.ts:193-194`). Reading past the end of a JavaScript
  array gives `undefined`. Both comparisons with `undefined` are false, so
  the type is `unknown`. `Math.abs(undefined - x) / 1e9` is `NaN`. The
  model reproduces this: the amount is `Amount.NaN` and there is no
  `requires` on the lengths (`Classifier.MissingBalanceGivesNaN`).
- **Negative balances.** They are not treated as malformed. The balances
  are compared as they are.

## Model

| member | source | states |
|---|---|---|
| `Sequences.FindIndex` | lib/solana.ts:187-191 | `findIndex` with exact string equality: -1 exactly when the address is not a key, otherwise the first index holding it |
| `Classifier.ElementAt` | lib/solana.ts:193-194 | array indexing yields a value exactly inside the bounds and `undefined` outside |
| `Classifier.DirectionOf` | lib/solana.ts:196-202 | reference rule: positive change is incoming, negative is outgoing, zero is unknown (each an if-and-only-if) |
| `Classifier.SolOf` | lib/solana.ts:226-228 | reference amount: never negative, and zero exactly when the change is zero |
| `Classifier.DetermineTransactionType` | lib/solana.ts:177-203 | a null transaction, a missing `meta` or an absent address gives `unknown`; the comparisons are JavaScript `>` with a possibly `undefined` operand (`GreaterThan`, false when either side is `undefined`) |
| `Classifier.ExtractTransactionAmount` | lib/solana.ts:208-229 | the amount is `null` exactly when the transaction is null, `meta` is missing or the address is absent; a number amount is never negative; the magnitude is `Math.abs` (`Abs`) of post − pre |
| `Classifier.NoMetaIsUnclassified` | lib/solana.ts:181 | null transaction or missing `meta` gives `unknown` and `null` from both functions |
| `Classifier.AbsentAddressIsUnclassified` | lib/solana.ts:187-191 | an address that is not among the keys gives `unknown` and `null` |
| `Classifier.ClassifiedBySignAtFirstIndex` | lib/solana.ts:193-228 | at the first occurrence where both balances exist, the type is the sign of post − pre and the amount is its magnitude over 10^9; both functions use that same index |
| `Classifier.MissingBalanceGivesNaN` | lib/solana.ts:193-194 | a first occurrence past the end of a balance array gives `unknown` and `NaN` |
| `Classifier.DirectionImpliesPositiveAmount` | lib/solana.ts:196-228 | whenever the type is not `unknown`, the amount is a number and strictly positive |
| `Classifier.UnknownIffNoMovement` | lib/solana.ts:196-228 | the type is `unknown` if and only if the amount is `null`, `NaN` or `0` |
| `Classifier.OnlyFirstOccurrenceMatters` | lib/solana.ts:187-189 | balances at later occurrences of the address, or at other accounts, do not affect either result |
| `Classifier.Scenarios` | lib/solana.ts:177-229 | W gaining 50 lamports is incoming 50/10^9; X losing 50 is outgoing 50/10^9; an absent Z is unknown/null; a zero change is unknown with amount 0 |
| `History.TransactionEntry` | lib/solana.ts:141-163 | each entry takes its signature and timestamp (`blockTime ?? null`) from the listing whether or not the fetch succeeded; a failed fetch gives `unknown`/`null`; otherwise both classifiers are applied; every entry with a direction has a positive amount |
| `History.ClassifySignatures` | lib/solana.ts:140-165 | one entry per signature, same length, entry `i` built from signature `i` and fetch `i` only |
| `History.FetchFailureIsIsolated` | lib/solana.ts:156-162 | changing what one fetch did, for example making it fail, leaves every other entry unchanged |
| `History.ClassifySignaturesAppend` | lib/solana.ts:140-165 | classifying two parts of a listing and joining them equals classifying the whole, so order is preserved |
| `History.SliceTo` | lib/solana.ts:129 | `slice(0, end)` returns a prefix whose length is `min(end, n)` for `end >= 0`, and `max(n + end, 0)` for negative `end` |
| `History.MockEntries` | lib/solana.ts:67-128 | the fixed list has ten entries; entry `i` is stamped `i + 1` hours before now |
| `History.MockTransactions` | lib/solana.ts:64-130 | the mock result has length `min(10, limit)` (or the JavaScript negative-limit length) and is a prefix of the fixed list; it is newest first; a direction always comes with a positive amount and `unknown` with `null` |
| `History.MockDefaultIsWholeList` | lib/solana.ts:62-129 | with the default limit of 10, mock mode returns the whole fixed list |
| `History.GetRecentTransactions` | lib/solana.ts:60-171 | an omitted `limit` defaults to 10; mock mode returns the mock prefix; live mode fails with `Failed to fetch transactions` exactly when the listing failed, and otherwise returns one well-formed entry per signature, in order |
| `PaymentRequest.CreateSolanaPaymentRequest` | lib/solana.ts:28-34 | the URI always starts with `solana:` + address; it continues with `?amount=` + the encoded amount exactly when the amount is finite and positive (`HasAmount`, the negation of the test at line 29), and otherwise has nothing after the address |
| `PaymentRequest.ParseCreateRoundTrip` | lib/solana.ts:28-34 | reading a created URI gives back the address, and gives back the encoded amount exactly when the amount is finite and positive (for an address without '?', as base58 addresses are) |
| `PaymentRequest.Scenarios` | lib/solana.ts:29-33 | `ADDR` with 1.5 gives `solana:ADDR?amount=1.5`; 0, -1 and NaN give `solana:ADDR` |

## Left out

- `getBalance` (lib/solana.ts:39-55): network I/O. The mock value 42.5678 and the live `balance / LAMPORTS_PER_SOL` with its error are not modelled.
- `isValidSolanaAddress` (lib/solana.ts:16-23): it only wraps the `PublicKey` constructor, whose base58 and length checks are not part of this model.
- The `Connection`, signature-listing and transaction-fetch calls are not modelled. The model takes their outcomes as inputs.
- `Promise.all` concurrency and the `setTimeout` delays are not modelled. The positional map states the ordering contract.
- History.GetRecentTransactions: the `console.error` logging before the rethrow (lib/solana.ts:169) is console I/O and is not modelled; only the thrown message is.
- History.GetRecentTransactions: the RPC's promise to return at most `limit` signatures is the service's, not the code's. The model does not check it.
- History.SliceTo and History.MockTransactions: `limit` is an integer. Non-integer, `NaN` and infinite limits are left out.
- Classifier.ExtractTransactionAmount: the amount is the exact rational `|post − pre| / 10^9`. Floating-point rounding of lamport balances and of the division is left out.
- PaymentRequest.CreateSolanaPaymentRequest: how the number becomes a string and how it is percent-encoded is abstracted as the `encode` parameter.
- Mock mode: `Math.random()` signature suffixes and the `Date.now()` clock are abstracted as parameters.
- All React components (`app/page.tsx`, `components/*.tsx`): presentation, animation and `toFixed(4)` formatting.
