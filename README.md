# Account handlers of the accounts service, modelled in Dafny

This project models the account HTTP handlers of the Moov accounts service
(`cmd/server/accounts.go`). It covers three things:

- **Opening an account** (`POST /accounts`). The handler decodes and
  validates the request. It builds the account: a fresh id, a random
  account number, the default routing number, status `open`, creation time
  equal to last-modified time. It persists the account through the account
  repository. Only if that succeeds does it submit a one-line
  initial-deposit transaction through the transaction repository. Nothing
  is undone when the deposit fails.
- **Searching accounts** (`GET /accounts/search`). The handler runs one
  strategy. A complete (number, routing number, type) key runs the
  routing-number search. Otherwise a customer id runs the customer search.
  Otherwise the request is refused for missing parameters. A repository
  error, a nil account and an empty list all become "account not found".
- **The `customerId` route variable** (`getCustomerId`).

Files:

- `strings.dfy` (module `GoStrings`): Go's `strings.TrimSpace`, and
  `strings.ToLower` restricted to the runes that matter for validation,
  over runes.
- `decimal.dfy` (module `Decimal`): the `%d` rendering of a natural number
  and its inverse.
- `accounts.dfy` (module `Accounts`): the data, the validation, the
  account-number rendering, and one function per handler. Each handler
  function maps the handler's inputs to its response and to the list of
  repository calls it makes, in order. The inputs are the decoded body or
  query, the ids, random number and clock reading it draws, and the outcomes
  the repositories report. The module also states the invariant of the call
  history that both handlers keep.
- `handlers.dfy` (module `Handlers`): the handlers as they run, step by step
  with early returns. They call a `Repositories` object that appends every
  call to a `trace`. Each handler is proved to make exactly the calls and
  give exactly the response its function describes. The `Serve…` methods
  also keep the history invariant.

A reader might expect four things that the code does not do. The model
follows the code:

- **A normalised type and customer id.** `validate` has a value receiver,
  so its `TrimSpace` and `ToLower` results are lost. An account created with type `"Checking"` is
  stored as `"Checking"`, not `"checking"`. A customer id `" c1 "` reaches
  the repository untrimmed. See `CreationKeepsRequestAsSent`.
- **A trimmed name.** A name made only of spaces passes validation, because the name
  is not trimmed.
- **An atomic create-and-fund step.** Creation is not atomic. A failed deposit leaves the
  persisted account in place, and the response is the same backend-error
  problem as a failed persist.
- **An error on an ambiguous match.** The routing-number search returns whatever single
  account the repository gives. The handler has no ambiguous-match case.

## Model

| member | source | states |
|---|---|---|
| `GoStrings.TrimLeft` | cmd/server/accounts.go:106 | the result is a suffix of the input, everything dropped is white space, and it does not start with white space |
| `GoStrings.TrimRight` | cmd/server/accounts.go:106 | the result is a prefix of the input, everything dropped is white space, and it does not end with white space |
| `GoStrings.IsSpace` | cmd/server/accounts.go:106 | Go's `unicode.IsSpace` (the six ASCII white space characters, NEL, NBSP and the other Unicode White_Space runes); on ASCII it agrees with the table of `TrimSpace`'s ASCII fast path: tab, newline, vertical tab, form feed, carriage return and space |
| `GoStrings.TrimSpace` | cmd/server/accounts.go:106 | the trimmed customer id is empty exactly when every rune is white space (Go's `unicode.IsSpace` set); otherwise it starts and ends with a non-space rune |
| `GoStrings.TrimSpaceDropsOnlyEnds` | cmd/server/accounts.go:106 | the trimmed string is the input with its leading white space and an all-space suffix removed, rune for rune: only white space at the two ends is removed |
| `GoStrings.TrimSpaceIdempotent` | cmd/server/accounts.go:106 | trimming twice is trimming once |
| `GoStrings.LowerRune` | cmd/server/accounts.go:115 | `unicode.ToLower` for A–Z, U+0130 and U+212A: the result is an ASCII small letter exactly when the rune is one, an ASCII capital, U+0130 or U+212A; no ASCII capital survives; no other rune changes; a small letter comes only from itself, from its ASCII capital, or ('i', 'k') from U+0130 and U+212A, so the mapping is fixed rune for rune |
| `GoStrings.ToLower` | cmd/server/accounts.go:115 | same length, each rune replaced by `LowerRune` of it, so no ASCII capital remains |
| `GoStrings.ToLowerIdempotent` | cmd/server/accounts.go:115 | lower-casing twice is lower-casing once |
| `Decimal.DecimalString` | cmd/server/accounts.go:126 | `%d` of a natural number is at least one digit and has no leading zero unless it is "0" |
| `Decimal.DecimalRoundTrip` | cmd/server/accounts.go:126 | reading back the rendering of n gives n |
| `Decimal.CanonicalRoundTrip` | cmd/server/accounts.go:126 | rendering the value of a canonical digit string gives the string back: rendering is a bijection onto canonical strings |
| `Decimal.DecimalLength` | cmd/server/accounts.go:125-126 | a number below 10^k, for k >= 1, renders in at most k digits |
| `Accounts.Validate` | cmd/server/accounts.go:105-122 | no error exactly when the customer id has a non-space rune, balance >= 100, the name is non-empty and the lower-cased type is checking or savings; otherwise the error of the first failing check in that order, with the amount or the lower-cased type it carries |
| `Accounts.ValidateIgnoresTypeCase` | cmd/server/accounts.go:115-120 | lower-casing the type beforehand changes no verdict |
| `Accounts.ValidateIgnoresCustomerIdPadding` | cmd/server/accounts.go:106-108 | trimming the customer id beforehand changes no verdict |
| `Accounts.PaddedCapitalisedRequestIsValid` | cmd/server/accounts.go:105-122 | customer id " c1 " with type "Checking" passes validation |
| `Accounts.CreateAccountNumber` | cmd/server/accounts.go:124-127 | for a drawn n < 10^9: one to nine ASCII digits, no leading zero unless "0", and the digits read back as n |
| `Accounts.AccountNumberInjective` | cmd/server/accounts.go:124-127 | two account numbers are equal exactly when the drawn numbers are equal |
| `Accounts.NewAccount` | cmd/server/accounts.go:152-163 | the account built from a validated request has the drawn id and time, an account number that reads back as the drawn number, the default routing number, status "open", zero balances, no closing time, and the customer id, name and type as sent |
| `Accounts.InitialDeposit` | cmd/server/accounts.go:171-180 | the transaction carries the drawn transaction id and exactly one line, an ACH credit of the requested balance to the new account's id (`Creation` submits it with `InitialDeposit: true`) |
| `Accounts.Creation` | cmd/server/accounts.go:129-190 | no call without a response writer; a malformed body or invalid request gives its problem with no repository call; otherwise one `CreateAccount` with the caller's untrimmed customer id and an account with the drawn id and time, open status, default routing number, zero balances and the type as sent; the deposit call (initial deposit, one ACH credit line for the new account's id and the requested amount) is made once and only after a successful create; a failed create or deposit gives its backend error with no undo; success returns the persisted account |
| `Accounts.CreationKeepsRequestAsSent` | cmd/server/accounts.go:146-165 | a request with type "Checking" and customer id " c1 " creates an account with type "Checking" and customer id " c1 ", and persists it under " c1 " |
| `Accounts.CreationRejectsSmallBalance` | cmd/server/accounts.go:109-110 | any decoded request with a customer id and a balance below 100 gives the invalid-amount problem carrying that balance and no repository call, whatever the repositories would answer |
| `Accounts.QueryGet` | cmd/server/accounts.go:58 | `url.Values.Get`: a non-empty result is the key's first value; the result is "" exactly when the key is missing, has no values or its first value is "" |
| `Accounts.ChooseSearch` | cmd/server/accounts.go:58-59 | routing-number search exactly when number, routingNumber and type are all non-empty, with those three values; otherwise customer search exactly when customerId is non-empty; otherwise missing parameters |
| `Accounts.RoutingSearchIgnoresCustomerId` | cmd/server/accounts.go:58-61 | with a complete routing key, changing customerId does not change the strategy |
| `Accounts.Search` | cmd/server/accounts.go:55-94 | at most one repository search; none exactly when the writer failed or parameters are missing (the missing-parameters problem); a routing search error or nil account gives not found, else a one-element list; a customer search error or empty list gives not found, else the list as returned |
| `Accounts.GetCustomerId` | cmd/server/accounts.go:32-39 | "" together with the no-customer-id problem exactly when the route variable is missing or empty, otherwise its value |
| `Accounts.BlockKeepsDepositsPaired` | cmd/server/accounts.go:165-181 | appending what one creation can make (nothing; a failed creation; a successful creation and then its opening deposit) keeps every deposit right after its account's successful creation and every successful creation followed by a deposit |
| `Accounts.BlockKeepsIdsDistinct` | cmd/server/accounts.go:152-165 | appending such calls for an unused account id keeps account ids distinct |
| `Accounts.CreationPreservesHistory` | cmd/server/accounts.go:152-185 | if the new account id was never used, a creation request keeps the history invariant: each deposit directly follows the successful creation of the account it credits, with at least 100; each successful creation is directly followed by a deposit; account ids are distinct |
| `Accounts.SearchPreservesHistory` | cmd/server/accounts.go:55-94 | a search request keeps the history invariant |
| `Handlers.Repositories.CreateAccount` | cmd/server/accounts.go:165 | the call is appended to the trace and answers with the supplied outcome |
| `Handlers.Repositories.CreateTransaction` | cmd/server/accounts.go:181 | the call is appended to the trace and answers with the supplied outcome |
| `Handlers.Repositories.SearchAccountsByRoutingNumber` | cmd/server/accounts.go:61 | the call is appended to the trace and answers with the supplied outcome |
| `Handlers.Repositories.SearchAccountsByCustomerId` | cmd/server/accounts.go:78 | the call is appended to the trace and answers with the supplied outcome |
| `Handlers.CreateAccountHandler` | cmd/server/accounts.go:129-190 | run step by step (the writer, decoding and validation checks, then `PersistAndFund`), the handler appends exactly the calls `Creation` lists, in order, and returns its response |
| `Handlers.PersistAndFund` | cmd/server/accounts.go:152-189 | for a valid request, the persist-then-deposit steps append exactly the repository calls `Creation` lists and return its response |
| `Handlers.ServeCreateAccount` | cmd/server/accounts.go:129-190 | as `CreateAccountHandler`, and the repositories' history invariant holds afterwards |
| `Handlers.SearchAccountsHandler` | cmd/server/accounts.go:48-96 | run step by step, the handler appends exactly the calls `Search` lists and returns its response |
| `Handlers.ServeSearchAccounts` | cmd/server/accounts.go:48-96 | as `SearchAccountsHandler`, and the history invariant holds afterwards |

## Left out

- HTTP plumbing is not modelled: `addAccountRoutes`, status codes, headers, JSON encoding of responses, logging and request-id lookup. The request id has no effect on behaviour. `moovhttp.Problem` becomes a `Problem` value; the message text is not modelled.
- `wrapResponseWriter` is reduced to the boolean `writerOk`. When it fails, the handler returns at once and makes no call. What the wrapper itself writes in that case is not modelled.
- JSON decoding of the request body is a parameter: a decoded request or an opaque decode error.
- `base.ID()`, `crypto/rand` and `time.Now()` are parameters: the account id, the transaction id, a drawn number below 10^9, and an instant. That the account id is new is assumed by `ServeCreateAccount` and `CreationPreservesHistory`, as `createAccount` assumes of `base.ID()`.
- `DEFAULT_ROUTING_NUMBER` becomes the constant `DefaultRoutingNumber`, whose value is left open.
- The ignored error of `rand.Int` at line 125 is not modelled. On error `n` would be nil and the handler would panic.
- GoStrings.ToLower: maps runes with `LowerRune`, which changes only A–Z, U+0130 and U+212A; Go's `unicode.ToLower` lower-cases every cased rune. The accept/reject verdict of validation is unaffected (see the next line).
- Validate: the lower-cased type carried by `UnknownType` maps only A–Z, U+0130 and U+212A. Other runes keep their case, unlike Go's full Unicode mapping. These two are the only runes outside A–Z whose lower case is an ASCII letter, so the accept/reject verdict is unaffected.
- Strings are sequences of runes. The behaviour of `TrimSpace` and `ToLower` on invalid UTF-8 bytes is not modelled.
- `createTransactionRequest.asTransaction`, `transactionLine`, `ACHCredit` and the transaction engine are defined in files that are not part of this model. A transaction is modelled as its id and its lines. Its other fields, and what the engine does with it, are not modelled.
- The repositories are only a trace of calls with supplied outcomes. The QLedger-backed repository (`qledgerAccountRepository`, `readBalance`, `readTime`, `GetAccounts`, `Ping`, `Close`) is not part of this model. Neither is `account_storage_qledger_test.go`, which tests it against a live ledger.
- Creation: the account is passed to the account repository as a value, while `createAccount` passes a pointer and reads the account again afterwards, for the deposit line and for the response. The model assumes the repository does not change the account through that pointer. A repository that did would change the deposit's account id and the body returned, and the model does not capture that.
- Concurrent requests are not modelled. Each request is one atomic step on the call history. Ordering and isolation between requests belong to the ledger backend.
- Account-number collisions are not modelled. `createAccountNumber` draws an account number without checking it against existing accounts. The model shows only that different draws give different numbers.
