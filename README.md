# Point ledger of a second-hand market

A model, in Dafny, of the point ledger of a small second-hand market. Users
hold a `point` balance. A purchase moves the requested `amount` from the
sender to the receiver inside one store transaction. Neither copy compares
the amount with the product's price, or the receiver with the product's
seller: the purchase page is what passes the price and the seller. The
transaction writes one TRANSFER log for each party and marks the product
SOLD_OUT. A charge adds points to the caller's own balance and writes one
CHARGE log.

Each operation exists twice:

- a server copy: the HTTP endpoints `transaction` and `charge`, with the
  request validator `validateTransaction`;
- a client copy: `transactionApi` and the `handleSubmit` handler of the
  charge form.

The copies are modelled side by side, and lemmas show where they agree and
where they differ.

## Modules

- `Wrappers`: `Option` and `Result`.
- `Js`: the JavaScript semantics the ledger depends on:
  - numbers with NaN;
  - falsiness and strict equality on request fields;
  - arithmetic and comparison in which NaN never compares true;
  - a missing document field read raw (`undefined`, NaN in arithmetic) or
    through `|| 0`;
  - the decimal text of the clock;
  - `parseInt`.
- `Outcomes`: the error codes, `error.message || fallback`, and ordered
  rejection chains. A chain is specified as the first failing rule of a
  list written in source order.
- `Store`: the three collections as a `Firestore` class whose `Commit`
  applies a transaction's buffered writes in issue order. Each transaction
  body is a read-only method that either throws a code or returns its
  writes.
  - A body that throws commits nothing.
  - A commit the store refuses (the `fault` parameter) commits nothing.
  - Otherwise every write is applied.
- `Http`: the method, token and verification gate shared by both endpoints.
- `Validators`, `TransferServer`, `TransferClient`, `ChargeServer` and
  `ChargeFormModel`: the five core files, one module each.

Every endpoint and client call is given twice:

- as a method over the `Firestore` object;
- as a function from the store before the call to the answer and the store
  after it.

The method's `ensures` ties the two together. The lemmas are stated about
the function.

Validation (`Validators.Validate`) and the charge input checks are pure
functions of the request and the caller's id. They read no store, so equal
inputs give equal answers by construction.

### Parameters for what the code does not decide

- The verified caller id is the `verified` parameter: the outcome of the
  token check.
- The store's generated log ids are parameters, and so are the commit time
  of `serverTimestamp()` (`at`) and the readings of `Date.now()` (`now`).
- A commit the store refuses is `fault`, carrying the error's message.
- The message the SDK throws when `doc()` is given an id that is not a
  string is `pathError`.

### Where the two transfer copies differ

- The server compares the sender's raw `point` with the amount. A sender
  with no `point` field therefore passes the balance check and is written
  NaN. The client reads both balances through `|| 0` and refuses the same
  sender (`TransferClient.MissingBalanceDiverges`).
- The client checks neither the amount's sign nor that sender and receiver
  differ (`TransferClient.SelfPurchaseMints`,
  `TransferClient.NegativeAmountReverses`).
- The client's log ids come from the clock, so two purchases by one user in
  the same millisecond share a log (`TransferClient.SameMillisecondOverwrites`).
  The same holds for the charge form
  (`ChargeFormModel.SameMillisecondChargesShareLog`).

## Model

| member | source | states |
|---|---|---|
| Js.NatToString | src/features/wallet/components/ChargeForm.jsx:50 | the decimal text of the clock reading is non-empty and made only of digits |
| Js.NatToStringInjective | src/features/wallet/components/ChargeForm.jsx:50 | different clock readings have different decimal texts |
| Js.ParseInt | src/features/wallet/components/ChargeForm.jsx:18-23 | `parseInt` (leading white space, sign, `0x` prefix, longest digit prefix, NaN when there is no digit) only ever yields whole numbers or NaN |
| Js.DigitPrefixOfDigits | src/features/wallet/components/ChargeForm.jsx:18-23 | on a text made only of digits, `parseInt` reads every character |
| Js.DigitsValueOfNatToString | src/features/wallet/components/ChargeForm.jsx:87 | the digits of a number's decimal text have that number as their value |
| Js.ParseIntOfDecimal | src/features/wallet/components/ChargeForm.jsx:18-23 | `parseInt` of a non-empty string of decimal digits is the value of those digits |
| Js.ParseIntOfNatToString | src/features/wallet/components/ChargeForm.jsx:87 | `parseInt(n.toString())` gives back `n` for every non-negative integer |
| Outcomes.FirstFailureIsFirst | functions/src/utils/validators.js:5-36 | a chain reports nothing exactly when every rule passes, and otherwise reports the failing rule that every earlier rule lets through |
| Outcomes.FirstFailureSkipsPassing | functions/src/transaction.js:74-82 | dropping a rule that passes leaves what the chain reports unchanged |
| Outcomes.FirstFailureReported | functions/src/transaction.js:149 | a chain whose codes all have a text is reported as the code itself, never as the fallback |
| Store.ApplyFrom | functions/src/transaction.js:95-131 | applying writes never creates or deletes a user or a product and never deletes a log |
| Store.ApplyAll | functions/src/transaction.js:95-131 | the same for a whole transaction's writes |
| Store.PurchaseEffect | functions/src/transaction.js:94-131 | the five purchase writes change each party's `point` (the receiver's write wins when the parties coincide), add the two TRANSFER logs and set the product to SOLD_OUT with the commit time, and change nothing else |
| Store.ChargeEffect | functions/src/charge.js:82-96 | the two charge writes set the user's `point` to the balance read through `\|\| 0` plus the amount, add the CHARGE log, and leave the products alone |
| Store.Firestore.constructor | functions/src/transaction.js:58 | the store object holds the given collections |
| Store.Firestore.Commit | functions/src/transaction.js:59-134 | committing applies every buffered write in issue order, as `ApplyAll` |
| Http.BearerTokenStripsPrefix | functions/src/transaction.js:35 | an `authorization` header `Bearer <t>` yields the token `t` |
| Http.Gate | functions/src/transaction.js:19-44 | OPTIONS is answered 200 with no body; any other non-POST method 405 METHOD_NOT_ALLOWED; a missing or empty token 401 UNAUTHORIZED; a failed verification 500 with `message \|\| fallback`; otherwise the request goes on, exactly then, as the verified uid |
| Validators.Validate | functions/src/utils/validators.js:1-37 | a request is accepted exactly when the sender is the caller, the caller's id is non-empty, receiver and product are truthy, the amount is a positive number of any size, and the receiver is not the caller |
| Validators.ValidateIsFirstFailure | functions/src/utils/validators.js:5-36 | the answer is the first failing check, in the order UNAUTHORIZED, INVALID_INPUT, INVALID_AMOUNT, INVALID_RECEIVER |
| Validators.SenderMismatchFirst | functions/src/utils/validators.js:5-10 | a sender other than the caller gives UNAUTHORIZED whatever else the request holds, a missing sender included |
| Validators.ZeroAmountIsMissing | functions/src/utils/validators.js:13-18 | an amount of 0 gives INVALID_INPUT, not INVALID_AMOUNT |
| Validators.BadAmountIsInvalidAmount | functions/src/utils/validators.js:21-26 | a truthy amount that is not a positive number gives INVALID_AMOUNT once the earlier checks pass |
| Validators.SelfTransferLast | functions/src/utils/validators.js:29-34 | INVALID_RECEIVER is given exactly when every earlier check passes and the receiver is the caller |
| TransferServer.ReachesIffNoRuleFails | functions/src/transaction.js:61-92 | the body reaches its writes exactly when no check of its ordered chain throws |
| TransferServer.TransactionBody | functions/src/transaction.js:59-134 | the body throws the first failing check's code exactly when it does not reach its writes, and otherwise returns the five purchase writes and the sender log id |
| TransferServer.RunTransaction | functions/src/transaction.js:59-134 | a thrown check or a refused commit leaves the store unchanged; otherwise the purchase writes are committed and the sender log id returned |
| TransferServer.HandleTransfer | functions/src/transaction.js:12-153 | the response and the new store are those of `TransferHandler` |
| TransferServer.TransferEffect | functions/src/transaction.js:94-131 | a purchase debits the sender's raw `point` and credits the receiver's, adds the two TRANSFER logs and sells the product, and nothing else |
| TransferServer.Conservation | functions/src/transaction.js:69-71 | between two accounts holding numbers, the sender loses and the receiver gains exactly the amount, so their sum is unchanged |
| TransferServer.SenderStaysNonNegative | functions/src/transaction.js:69-71 | the balance check leaves the sender at or above zero |
| TransferServer.TwoTransferLogs | functions/src/transaction.js:101-125 | with fresh ids, exactly two TRANSFER logs are added, with the same amount and product, each recording its user's new balance and naming the other party; the old logs are untouched |
| TransferServer.ProductSoldOut | functions/src/transaction.js:127-131 | only the bought product changes, and only its status (to SOLD_OUT) and `updatedAt` |
| TransferServer.OnlyPartiesChange | functions/src/transaction.js:94-99 | no user but the two parties changes, and they change only in `point` |
| TransferServer.NoSecondSale | functions/src/transaction.js:89-92 | after a purchase, any later purchase of the same product is refused |
| TransferServer.PriceNotCompared | functions/src/transaction.js:61-92 | the product's price has no bearing on whether a purchase proceeds |
| TransferServer.MissingPointSlipsThrough | functions/src/transaction.js:68-71 | a sender with no `point` passes the balance check and is written NaN |
| TransferServer.ChecksPrecedeStore | functions/src/transaction.js:19-55 | method, token and validation failures are answered the same whatever the store holds, and leave it unchanged |
| TransferServer.OnlySuccessWrites | functions/src/transaction.js:136-152 | only a success changes the store; a success is a 200 carrying the sender log id; the status is 200 exactly for a success or a preflight |
| TransferServer.EndpointConserves | functions/src/transaction.js:48-99 | through the endpoint, a success between two accounts holding numbers is between distinct users, conserves their sum and leaves the sender non-negative |
| TransferServer.EndpointOutcome | functions/src/transaction.js:33-152 | past the gate: a validation failure is 400 with its code; a thrown check is 500 with `message \|\| TRANSACTION_FAILED` (its own code when the SDK message is not empty); a refused commit is 500 with its message; otherwise 200 with the sender log id |
| TransferServer.PathErrorOrder | functions/src/transaction.js:61-82 | a receiver or product id that is not a string makes the body throw only where it is first looked up: after the sender checks, and for the product after the receiver check |
| TransferServer.ReservedNotAvailable | functions/src/transaction.js:89-92 | a RESERVED or SOLD_OUT product gives PRODUCT_NOT_AVAILABLE once the parties check out |
| TransferClient.ProceedsIffNoRuleFails | src/features/wallet/api/transactionApi.js:16-50 | the body reaches its writes exactly when no check of the chain SENDER_NOT_FOUND, INSUFFICIENT_BALANCE, RECEIVER_NOT_FOUND, PRODUCT_NOT_FOUND, PRODUCT_NOT_AVAILABLE throws |
| TransferClient.TransactionBody | src/features/wallet/api/transactionApi.js:11-94 | the body throws the first failing check's code exactly when it does not proceed, and otherwise returns the five writes and the sender log id |
| TransferClient.MessageFor | src/features/wallet/api/transactionApi.js:104-115 | each user message is chosen exactly for the code texts the table lists; SENDER_NOT_FOUND and RECEIVER_NOT_FOUND share one; a failure never shows the success message |
| TransferClient.Rejection | src/features/wallet/api/transactionApi.js:101-123 | a caught error becomes a failure result with code `message \|\| TRANSACTION_FAILED` and that code's message |
| TransferClient.TransactionApi | src/features/wallet/api/transactionApi.js:6-124 | the result and the new store are those of `Api`; the call never throws |
| TransferClient.ClientEffect | src/features/wallet/api/transactionApi.js:53-91 | a purchase sets both balances read through `\|\| 0`, sells the product, and adds under the two clock-based ids the same TRANSFER logs as the endpoint (user, amount, new balance, other party, product, title, commit time) |
| TransferClient.LogIdsDistinct | src/features/wallet/api/transactionApi.js:59-75 | a sender log id never equals a receiver log id |
| TransferClient.Conservation | src/features/wallet/api/transactionApi.js:20-57 | between distinct users, with missing balances counted as 0, the amount moves from one to the other, the sum is unchanged and the sender stays non-negative |
| TransferClient.SelfPurchaseMints | src/features/wallet/api/transactionApi.js:53-57 | when sender and receiver coincide, the balance grows by the amount |
| TransferClient.NegativeAmountReverses | src/features/wallet/api/transactionApi.js:23-57 | a negative amount passes the balance check and moves points from receiver to sender |
| TransferClient.TwoLogs | src/features/wallet/api/transactionApi.js:59-85 | with fresh ids, exactly two TRANSFER logs of the amount for the product are added, each naming the other party and recording its user's new balance; the old logs are untouched |
| TransferClient.SameMillisecondOverwrites | src/features/wallet/api/transactionApi.js:60-62 | a reused sender log id is overwritten, so only one log is added |
| TransferClient.NoSecondSale | src/features/wallet/api/transactionApi.js:47-50 | after a purchase, any later purchase of the same product is refused |
| TransferClient.SameAsServer | src/features/wallet/api/transactionApi.js:16-91 | with numeric balances, the client rejects with the endpoint body's code, proceeds in the same cases and buffers the same writes under its own ids |
| TransferClient.MissingBalanceDiverges | src/features/wallet/api/transactionApi.js:21-26 | a sender with no `point` is refused by the client with INSUFFICIENT_BALANCE but let through by the endpoint |
| TransferClient.ApiOutcome | src/features/wallet/api/transactionApi.js:96-123 | success exactly when the body proceeds and the commit is accepted, with the sender log id; a failure leaves the store unchanged and reports the first failing check (or the store's message) with the table's message |
| TransferClient.SharedUserMessage | src/features/wallet/api/transactionApi.js:113-115 | SENDER_NOT_FOUND and RECEIVER_NOT_FOUND both show the one user-not-found message |
| TransferClient.UnknownErrorIsGeneric | src/features/wallet/api/transactionApi.js:104-105 | any other store message shows the generic message; an empty one is reported as TRANSACTION_FAILED |
| ChargeServer.CheckInput | functions/src/charge.js:46-68 | a request goes on exactly when it names the caller (a non-empty id) and carries a positive number; otherwise the code is INVALID_INPUT, FORBIDDEN or INVALID_AMOUNT |
| ChargeServer.CheckInputIsFirstFailure | functions/src/charge.js:46-68 | the code is that of the first failing check, in source order |
| ChargeServer.MissingFieldBeforeOwnership | functions/src/charge.js:46-60 | an empty user id is INVALID_INPUT for a charge but UNAUTHORIZED for a transfer |
| ChargeServer.ChargeBody | functions/src/charge.js:72-99 | the body throws USER_NOT_FOUND exactly for a missing user, and otherwise returns the two charge writes and the log id |
| ChargeServer.RunCharge | functions/src/charge.js:72-99 | a missing user or a refused commit leaves the store unchanged; otherwise the charge is committed and the log id returned |
| ChargeServer.HandleCharge | functions/src/charge.js:10-119 | the response and the new store are those of `ChargeHandler` |
| ChargeServer.ChargeCredits | functions/src/charge.js:81-98 | a success raises the caller's balance read through `\|\| 0` by the positive amount, adds exactly one CHARGE log recording that amount and the new balance, answers with its id, and changes no other user, field, product or log |
| ChargeServer.ChargeCommitted | functions/src/charge.js:81-96 | a charge's writes raise the balance read through `\|\| 0` by the amount and, with a fresh log id, add exactly one CHARGE log recording the amount and the new balance; no other user, field, product or log changes |
| ChargeServer.ChargeResetsUnreadableBalance | functions/src/charge.js:82 | a balance that is absent, 0 or NaN becomes exactly the amount |
| ChargeServer.ChargeChecksPrecedeStore | functions/src/charge.js:17-68 | method, token and input failures are answered the same whatever the store holds, and leave it unchanged |
| ChargeServer.ChargeResponses | functions/src/charge.js:46-117 | 400 for INVALID_INPUT and INVALID_AMOUNT, 403 for FORBIDDEN, 500 USER_NOT_FOUND or the store's message, and only a success changes the store |
| ChargeFormModel.CheckAmount | src/features/wallet/components/ChargeForm.jsx:18-27 | an empty text or a `parseInt` at most 0 is refused first; a value above 1,000,000 next; a text passes exactly when it is non-empty and its `parseInt` is neither at most 0 nor above 1,000,000, and then yields that `parseInt`; a number let through is whole and in (0, 1,000,000]; a text with no digits is let through as NaN |
| ChargeFormModel.ChargeBody | src/features/wallet/components/ChargeForm.jsx:34-60 | the body throws USER_NOT_FOUND exactly for a missing user, and otherwise returns the two charge writes under the clock-based log id |
| ChargeFormModel.RunCharge | src/features/wallet/components/ChargeForm.jsx:34-60 | the charge commits exactly when the user exists and the store accepts the commit, and otherwise changes nothing |
| ChargeFormModel.Form.constructor | src/features/wallet/components/ChargeForm.jsx:9-11 | the form starts with an empty amount, not loading, and no error |
| ChargeFormModel.Form.ChoosePreset | src/features/wallet/components/ChargeForm.jsx:87 | a preset button sets the amount to the preset's decimal text and nothing else |
| ChargeFormModel.Form.Edit | src/features/wallet/components/ChargeForm.jsx:96 | typing sets the amount and nothing else |
| ChargeFormModel.Form.HandleSubmit | src/features/wallet/components/ChargeForm.jsx:15-73 | the error shown and the new store are those of `Submit`; the success path runs exactly when no error is shown; `loading` is cleared once the transaction was reached |
| ChargeFormModel.WholeAmounts | src/features/wallet/components/ChargeForm.jsx:18-27 | a whole amount typed as decimal text is refused when 0, refused above 1,000,000 (1,000,000 itself is accepted), and otherwise charged exactly |
| ChargeFormModel.PresetAccepted | src/features/wallet/components/ChargeForm.jsx:13 | every preset amount passes both checks unchanged |
| ChargeFormModel.ExponentFormTruncated | src/features/wallet/components/ChargeForm.jsx:18-24 | "2e6" is read by `parseInt` as 2 and charged as 2 |
| ChargeFormModel.NoDigitsLosesBalance | src/features/wallet/components/ChargeForm.jsx:18-44 | a text with no leading digit passes as NaN, and the charge writes NaN, which later reads take for 0 |
| ChargeFormModel.SubmitEffect | src/features/wallet/components/ChargeForm.jsx:34-60 | a submission with no error raised the balance read through `\|\| 0` by the amount, within the limit, and wrote the CHARGE log under the clock-based id, with the products unchanged; any error leaves the store unchanged |
| ChargeFormModel.SplitAtUnderscore | src/features/wallet/components/ChargeForm.jsx:50 | the digits of the clock and the user id can be read back from a log id |
| ChargeFormModel.ChargeLogIdInjective | src/features/wallet/components/ChargeForm.jsx:50 | two charge log ids are equal exactly when both the clock readings and the users are |
| ChargeFormModel.ChargeLogIdNotPurchase | src/features/wallet/components/ChargeForm.jsx:50 | a charge log id never equals a client purchase log id |
| ChargeFormModel.ChargeOnNumber | src/features/wallet/components/ChargeForm.jsx:43-52 | one charge on a numeric balance adds the amount and puts the log under its id |
| ChargeFormModel.SameMillisecondChargesShareLog | src/features/wallet/components/ChargeForm.jsx:50-52 | two charges by one user in the same millisecond share a log: both amounts are credited, only one log remains, and it holds the second amount |

## Left out

- HTTP plumbing is not modelled: CORS headers, `setGlobalOptions`, JSON encoding and the Korean message texts of responses and alerts. Only status codes and error codes are modelled.
- Token verification (`verifyIdToken`) is a call into the authentication service. Its outcome is the `verified` parameter, and a rejection's message is reported as the 500 answer's code.
- The store's optimistic-concurrency retries inside `runTransaction` are not modelled. Each transaction is one atomic step, and a commit the store gives up on is the `fault` parameter. A retry re-reading `Date.now()` is not modelled.
- A failing store read is not modelled. If a `transaction.get` rejects (a timeout, say, or a denial by the security rules the client copy relies on), the source reports that error's message before any check runs. The model has only one store failure, a refused commit (`fault`), and it is looked at only after the body reaches its writes.
- Generated document ids, `serverTimestamp()` and `Date.now()` are parameters. The freshness of a generated id is a lemma hypothesis.
- Log descriptions (the product title, `toLocaleString` of the amount) are kept as the data they are built from, not as text.
- JavaScript numbers are exact reals or NaN. Infinities, -0 and double rounding are not modelled, and `parseInt` is exact on any number of digits.
- A `point` field that holds something other than a number is not modelled: a balance is absent or a number.
- On the client, the transfer amount is a number and the ids are strings, as the purchase page passes them. An SDK error for a malformed id (one containing `/`, say) is not modelled there.
- An id containing `/` on the server is not modelled. Only a non-string id's path error is.
- The client's `console.error` and `refreshUser`, `alert`, `onSuccess`, `onCancel`, and the rendering are UI effects and are not modelled. A failure of `refreshUser` after a committed charge is not modelled either.
- The HTML input constraints of the amount field (`type="number"`, `min`, `required`) are enforced by the browser and are not modelled. `CheckAmount` sees any text.
- The purchase page's own guard and the `useTransaction` hook, which call the client transfer, are not part of this model. Neither are the seed scripts.
- TransferServer.EndpointOutcome: reports a body failure as its own code only when the SDK's path-error message is not empty; for an empty message it states the `|| 'TRANSACTION_FAILED'` form.
