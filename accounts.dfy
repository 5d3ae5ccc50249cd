/** The decisions the account handlers make: validating a creation request,
    building the new account and its initial deposit, choosing a search
    strategy and turning repository answers into responses. Each handler is
    described here by a function from its inputs (the decoded request, the
    identifiers, random number and clock reading it draws, the outcomes the
    repositories report) to the response it produces and the repository calls
    it makes, in order. */
module Accounts {
  import opened GoStrings
  import opened Decimal

  datatype Option<T> = None | Some(value: T)

  /** Go's `int` on a 64-bit platform. */
  type Int64 = x: int | -0x8000_0000_0000_0000 <= x < 0x8000_0000_0000_0000

  /** The process-wide routing number, read once from the environment
      variable DEFAULT_ROUTING_NUMBER; its value is not fixed by the model. */
  const DefaultRoutingNumber: string

  /** The smallest opening balance, in cents ($1). */
  const MinimumInitialBalance: int := 100

  // ---------------------------------------------------------------- data

  /** A point in time; `ZeroInstant` is Go's zero `time.Time`. */
  datatype Instant = ZeroInstant | At(unixNanos: int)

  datatype Account = Account(
    id: string,
    customerId: string,
    name: string,
    accountNumber: string,
    routingNumber: string,
    status: string,
    accountType: string,
    balance: int,
    balancePending: int,
    balanceAvailable: int,
    createdAt: Instant,
    lastModified: Instant,
    closedAt: Instant)

  /** The JSON body of `POST /accounts`. */
  datatype CreateAccountRequest = CreateAccountRequest(
    customerId: string, balance: Int64, name: string, accountType: string)

  datatype Purpose = ACHCredit

  datatype TransactionLine = TransactionLine(accountId: string, purpose: Purpose, amount: int)

  datatype Transaction = Transaction(id: string, lines: seq<TransactionLine>)

  datatype TransactionOptions = TransactionOptions(initialDeposit: bool)

  /** The opaque errors of the collaborators. */
  datatype DecodeError = DecodeError(message: string)
  datatype RepoError = RepoError(message: string)

  /** What decoding the request body yields. */
  datatype Decoded = Decoded(request: CreateAccountRequest) | Malformed(error: DecodeError)

  /** An answer of a repository search: a value, or an error. */
  datatype RepoResult<T> = Found(value: T) | Failed(error: RepoError)

  datatype ValidationError =
    | EmptyCustomerId
    | InvalidInitialAmount(amount: int)
    | MissingName
    | UnknownType(lowered: string)

  /** The problems a handler reports instead of a result. */
  datatype Problem =
    | MalformedJson(decodeError: DecodeError)
    | InvalidRequest(validationError: ValidationError)
    | BackendError(repoError: RepoError)
    | AccountNotFound(cause: Option<RepoError>)
    | MissingSearchParameters
    | NoCustomerId

  /** What a handler writes back; `Aborted` is the early return taken when
      the response writer cannot be set up. */
  datatype Response =
    | Aborted
    | AccountBody(account: Account)
    | AccountListBody(accounts: seq<Account>)
    | ProblemResponse(problem: Problem)

  /** One call to the account or the transaction repository, with the
      outcome that call reported. */
  datatype Call =
    | CreateAccountCall(customerId: string, account: Account, createError: Option<RepoError>)
    | CreateTransactionCall(tx: Transaction, opts: TransactionOptions, txError: Option<RepoError>)
    | SearchByRoutingNumberCall(number: string, routingNumber: string, accountType: string)
    | SearchByCustomerIdCall(searchedCustomerId: string)

  /** The response of one request and the repository calls made for it, in order. */
  datatype Handled = Handled(response: Response, calls: seq<Call>)

  // ---------------------------------------------------------- validation

  predicate IsAccountType(t: string) {
    t == "checking" || t == "savings"
  }

  /** The four requirements on a creation request, each stated on its own. */
  ghost predicate CustomerIdPresent(req: CreateAccountRequest) {
    exists k :: 0 <= k < |req.customerId| && !IsSpace(req.customerId[k])
  }

  ghost predicate IsValidRequest(req: CreateAccountRequest) {
    CustomerIdPresent(req)
    && req.balance >= MinimumInitialBalance
    && req.name != ""
    && IsAccountType(ToLower(req.accountType))
  }

  /** `createAccountRequest.validate`: no error exactly when all four
      requirements hold; otherwise the error of the first one that fails, in
      the order customer id, balance, name, type. The request itself is a
      value and is not changed: the trimmed and lower-cased strings exist
      only inside the check. */
  function Validate(req: CreateAccountRequest): (r: Option<ValidationError>)
    ensures r.None? <==> IsValidRequest(req)
    ensures r == Some(EmptyCustomerId) <==> !CustomerIdPresent(req)
    ensures r == Some(InvalidInitialAmount(req.balance)) <==>
      CustomerIdPresent(req) && req.balance < MinimumInitialBalance
    ensures r == Some(MissingName) <==>
      CustomerIdPresent(req) && req.balance >= MinimumInitialBalance && req.name == ""
    ensures r == Some(UnknownType(ToLower(req.accountType))) <==>
      CustomerIdPresent(req) && req.balance >= MinimumInitialBalance && req.name != ""
      && !IsAccountType(ToLower(req.accountType))
  {
    if TrimSpace(req.customerId) == "" then Some(EmptyCustomerId)
    else if req.balance < MinimumInitialBalance then Some(InvalidInitialAmount(req.balance))
    else if req.name == "" then Some(MissingName)
    else if !IsAccountType(ToLower(req.accountType)) then Some(UnknownType(ToLower(req.accountType)))
    else None
  }

  /** The type check ignores case: lower-casing the type beforehand changes
      no verdict. */
  lemma ValidateIgnoresTypeCase(req: CreateAccountRequest)
    ensures Validate(req) == Validate(req.(accountType := ToLower(req.accountType)))
  {
    ToLowerIdempotent(req.accountType);
  }

  /** The customer id check ignores surrounding white space. */
  lemma ValidateIgnoresCustomerIdPadding(req: CreateAccountRequest)
    ensures Validate(req) == Validate(req.(customerId := TrimSpace(req.customerId)))
  {
  }

  // ------------------------------------------------------ account number

  /** The numbers `crypto/rand` draws account numbers from: [0, 10^9). */
  type AccountNumberSeed = n: nat | n < 1_000_000_000

  /** `createAccountNumber` for the drawn number `n`: its decimal rendering,
      one to nine digits with no leading zero (except "0"), from which `n`
      can be read back. */
  function CreateAccountNumber(n: AccountNumberSeed): (r: string)
    ensures IsCanonical(r) && |r| <= 9
    ensures DecimalValue(r) == n
  {
    assert Pow10(9) == 1_000_000_000;
    DecimalLength(n, 9);
    DecimalRoundTrip(n);
    DecimalString(n)
  }

  /** Distinct draws give distinct account numbers; equal draws, equal ones. */
  lemma AccountNumberInjective(m: AccountNumberSeed, n: AccountNumberSeed)
    ensures CreateAccountNumber(m) == CreateAccountNumber(n) <==> m == n
  {
  }

  // ------------------------------------------------------------ creation

  /** What the creation handler draws from its environment: `base.ID()`
      for the account and for the transaction, `crypto/rand` for the
      account number and `time.Now()`. */
  datatype CreationChoices = CreationChoices(
    accountId: string, accountNumberSeed: AccountNumberSeed, now: Instant, transactionId: string)

  /** The account `createAccount` builds from a validated request. */
  function NewAccount(req: CreateAccountRequest, ch: CreationChoices): (a: Account)
    ensures IsOpenedAccount(a, req, ch)
  {
    Account(
      id := ch.accountId,
      customerId := req.customerId,
      name := req.name,
      accountNumber := CreateAccountNumber(ch.accountNumberSeed),
      routingNumber := DefaultRoutingNumber,
      status := "open",
      accountType := req.accountType,
      balance := 0, balancePending := 0, balanceAvailable := 0,
      createdAt := ch.now, lastModified := ch.now, closedAt := ZeroInstant)
  }

  /** The one-line transaction crediting a new account with its opening balance. */
  function InitialDeposit(account: Account, req: CreateAccountRequest, ch: CreationChoices): (tx: Transaction)
    ensures tx.id == ch.transactionId
    ensures tx.lines == [TransactionLine(account.id, ACHCredit, req.balance)]
  {
    Transaction(ch.transactionId, [TransactionLine(account.id, ACHCredit, req.balance)])
  }

  /** The account a successful validation leads to, described field by field:
      the drawn id and time, an account number read back as the drawn number,
      the default routing number, status "open", zero balances, and the
      customer id, name and type exactly as the caller sent them. */
  ghost predicate IsOpenedAccount(a: Account, req: CreateAccountRequest, ch: CreationChoices) {
    a.id == ch.accountId
    && a.customerId == req.customerId && a.name == req.name && a.accountType == req.accountType
    && IsCanonical(a.accountNumber) && |a.accountNumber| <= 9
    && DecimalValue(a.accountNumber) == ch.accountNumberSeed
    && a.routingNumber == DefaultRoutingNumber
    && a.status == "open"
    && a.balance == 0 && a.balancePending == 0 && a.balanceAvailable == 0
    && a.createdAt == ch.now && a.lastModified == ch.now && a.closedAt == ZeroInstant
  }

  /** A call that submits the initial deposit of `amount` for account `id`. */
  ghost predicate IsInitialDepositCall(c: Call, id: string, amount: int) {
    c.CreateTransactionCall? && c.opts.initialDeposit
    && c.tx.lines == [TransactionLine(id, ACHCredit, amount)]
  }

  /** True when the request gets past decoding and validation. */
  ghost predicate Admitted(writerOk: bool, body: Decoded) {
    writerOk && body.Decoded? && Validate(body.request).None?
  }

  /** The handler of `POST /accounts` (`createAccount`): decode, validate,
      persist the account, then submit its initial deposit. */
  function Creation(writerOk: bool, body: Decoded, ch: CreationChoices,
                    createResult: Option<RepoError>, txResult: Option<RepoError>): (h: Handled)
    // before any response can be written, nothing happens
    ensures !writerOk ==> h == Handled(Aborted, [])
    // a body that does not decode, or a request that does not validate, is
    // reported and reaches neither repository
    ensures writerOk && body.Malformed? ==> h == Handled(ProblemResponse(MalformedJson(body.error)), [])
    ensures writerOk && body.Decoded? && Validate(body.request).Some? ==>
      h == Handled(ProblemResponse(InvalidRequest(Validate(body.request).value)), [])
    // an admitted request creates exactly one account, shaped as described,
    // for the customer id the caller sent
    ensures h.calls != [] <==> Admitted(writerOk, body)
    ensures h.calls != [] ==>
      h.calls[0].CreateAccountCall? && h.calls[0].createError == createResult
      && h.calls[0].customerId == body.request.customerId
      && IsOpenedAccount(h.calls[0].account, body.request, ch)
    // the deposit is submitted once, and only after the account was persisted
    ensures |h.calls| <= 2
    ensures |h.calls| == 2 <==> Admitted(writerOk, body) && createResult.None?
    ensures |h.calls| == 2 ==>
      IsInitialDepositCall(h.calls[1], h.calls[0].account.id, body.request.balance)
      && h.calls[1].tx.id == ch.transactionId && h.calls[1].txError == txResult
    // a failed account creation is reported as it came
    ensures |h.calls| == 1 ==> h.response == ProblemResponse(BackendError(createResult.value))
    // a failed deposit is reported, and the persisted account is not undone
    ensures |h.calls| == 2 && txResult.Some? ==>
      h.response == ProblemResponse(BackendError(txResult.value))
    // success returns the persisted account
    ensures h.response.AccountBody? <==> |h.calls| == 2 && txResult.None?
    ensures h.response.AccountBody? ==> h.response.account == h.calls[0].account
  {
    if !writerOk then Handled(Aborted, [])
    else if body.Malformed? then Handled(ProblemResponse(MalformedJson(body.error)), [])
    else
      var req := body.request;
      var invalid := Validate(req);
      if invalid.Some? then Handled(ProblemResponse(InvalidRequest(invalid.value)), [])
      else
        var account := NewAccount(req, ch);
        var created := CreateAccountCall(req.customerId, account, createResult);
        if createResult.Some? then Handled(ProblemResponse(BackendError(createResult.value)), [created])
        else
          var deposit := CreateTransactionCall(InitialDeposit(account, req, ch), TransactionOptions(true), txResult);
          if txResult.Some? then Handled(ProblemResponse(BackendError(txResult.value)), [created, deposit])
          else Handled(AccountBody(account), [created, deposit])
  }

  /** A request whose customer id carries spaces and whose type is
      capitalised passes validation. */
  lemma PaddedCapitalisedRequestIsValid()
    ensures Validate(CreateAccountRequest(" c1 ", 100, "n", "Checking")) == None
  {
    assert !IsSpace(" c1 "[1]);
    assert ToLower("Checking") == "checking";
  }

  /** The account type is stored as sent, not lower-cased: "Checking" passes
      validation and the account keeps "Checking"; likewise the customer id
      keeps its surrounding spaces, also in the repository call. */
  lemma CreationKeepsRequestAsSent(ch: CreationChoices)
    ensures var h := Creation(true, Decoded(CreateAccountRequest(" c1 ", 100, "n", "Checking")), ch, None, None);
      h.response.AccountBody? && h.response.account.accountType == "Checking"
      && h.response.account.customerId == " c1 " && h.calls[0].customerId == " c1 "
  {
    PaddedCapitalisedRequestIsValid();
  }

  /** A request with a customer id but less than the minimum balance is
      turned away with the invalid-amount problem before any repository
      call, whatever the repositories would answer. */
  lemma CreationRejectsSmallBalance(req: CreateAccountRequest, ch: CreationChoices,
                                    a: Option<RepoError>, t: Option<RepoError>)
    requires CustomerIdPresent(req) && req.balance < MinimumInitialBalance
    ensures Creation(true, Decoded(req), ch, a, t)
      == Handled(ProblemResponse(InvalidRequest(InvalidInitialAmount(req.balance))), [])
  {
  }

  // -------------------------------------------------------------- search

  /** URL query parameters; `QueryGet` is `url.Values.Get`: the first value
      of the key, or "" when there is none. */
  type Query = map<string, seq<string>>

  function QueryGet(q: Query, key: string): (v: string)
    ensures v != "" ==> key in q && q[key] != [] && v == q[key][0]
    ensures v == "" <==> key !in q || q[key] == [] || q[key][0] == ""
  {
    if key in q && q[key] != [] then q[key][0] else ""
  }

  datatype SearchStrategy =
    | ByRoutingNumber(number: string, routingNumber: string, accountType: string)
    | ByCustomerId(customerId: string)
    | MissingParameters

  ghost predicate HasRoutingKey(q: Query) {
    QueryGet(q, "number") != "" && QueryGet(q, "routingNumber") != "" && QueryGet(q, "type") != ""
  }

  /** The strategy `searchAccounts` picks: the routing-number search when
      number, routing number and type are all given (whatever the customer id
      says); otherwise the customer search when the customer id is given;
      otherwise none. */
  function ChooseSearch(q: Query): (s: SearchStrategy)
    ensures s.ByRoutingNumber? <==> HasRoutingKey(q)
    ensures s.ByRoutingNumber? ==>
      s == ByRoutingNumber(QueryGet(q, "number"), QueryGet(q, "routingNumber"), QueryGet(q, "type"))
    ensures s.ByCustomerId? <==> !HasRoutingKey(q) && QueryGet(q, "customerId") != ""
    ensures s.ByCustomerId? ==> s.customerId == QueryGet(q, "customerId")
    ensures s.MissingParameters? <==> !HasRoutingKey(q) && QueryGet(q, "customerId") == ""
  {
    var number, routingNumber, accountType := QueryGet(q, "number"), QueryGet(q, "routingNumber"), QueryGet(q, "type");
    if number != "" && routingNumber != "" && accountType != "" then
      ByRoutingNumber(number, routingNumber, accountType)
    else if QueryGet(q, "customerId") != "" then
      ByCustomerId(QueryGet(q, "customerId"))
    else
      MissingParameters
  }

  /** A complete routing key wins over the customer id, whatever its value. */
  lemma RoutingSearchIgnoresCustomerId(q: Query, other: seq<string>)
    requires HasRoutingKey(q)
    ensures ChooseSearch(q) == ChooseSearch(q["customerId" := other])
  {
  }

  /** The error a failed lookup carries, if any. */
  function Cause<T>(r: RepoResult<T>): (c: Option<RepoError>)
    ensures c.Some? <==> r.Failed?
  {
    if r.Failed? then Some(r.error) else None
  }

  /** The handler of `GET /accounts/search` (`searchAccounts`). The results
      the two repository searches would give are parameters; at most one of
      them is asked for. */
  function Search(writerOk: bool, q: Query,
                  routingResult: RepoResult<Option<Account>>,
                  customerResult: RepoResult<seq<Account>>): (h: Handled)
    ensures !writerOk ==> h == Handled(Aborted, [])
    // at most one search, and none without a complete key
    ensures |h.calls| <= 1
    ensures h.calls == [] <==> !writerOk || ChooseSearch(q).MissingParameters?
    ensures writerOk && ChooseSearch(q).MissingParameters? ==>
      h.response == ProblemResponse(MissingSearchParameters)
    // routing-number search: one account, or not found
    ensures writerOk && ChooseSearch(q).ByRoutingNumber? ==>
      h.calls == [SearchByRoutingNumberCall(QueryGet(q, "number"), QueryGet(q, "routingNumber"), QueryGet(q, "type"))]
      && (if routingResult.Found? && routingResult.value.Some?
          then h.response == AccountListBody([routingResult.value.value])
          else h.response == ProblemResponse(AccountNotFound(Cause(routingResult))))
    // customer search: the accounts as the repository listed them, or not found
    ensures writerOk && ChooseSearch(q).ByCustomerId? ==>
      h.calls == [SearchByCustomerIdCall(QueryGet(q, "customerId"))]
      && (if customerResult.Found? && customerResult.value != []
          then h.response == AccountListBody(customerResult.value)
          else h.response == ProblemResponse(AccountNotFound(Cause(customerResult))))
    // a list is returned only when it is not empty
    ensures h.response.AccountListBody? ==> h.response.accounts != []
  {
    if !writerOk then Handled(Aborted, [])
    else
      match ChooseSearch(q)
      case ByRoutingNumber(number, routingNumber, accountType) =>
        var call := SearchByRoutingNumberCall(number, routingNumber, accountType);
        if routingResult.Failed? || routingResult.value.None? then
          Handled(ProblemResponse(AccountNotFound(Cause(routingResult))), [call])
        else
          Handled(AccountListBody([routingResult.value.value]), [call])
      case ByCustomerId(customerId) =>
        var call := SearchByCustomerIdCall(customerId);
        if customerResult.Failed? || |customerResult.value| == 0 then
          Handled(ProblemResponse(AccountNotFound(Cause(customerResult))), [call])
        else
          Handled(AccountListBody(customerResult.value), [call])
      case MissingParameters =>
        Handled(ProblemResponse(MissingSearchParameters), [])
  }

  // ------------------------------------------------------------ route vars

  /** `getCustomerId`: the `customerId` route variable, or "" together with
      the no-customer-id problem when it is missing or empty. */
  function GetCustomerId(vars: map<string, string>): (r: (string, Option<Problem>))
    ensures r.1.Some? <==> "customerId" !in vars || vars["customerId"] == ""
    ensures r.1.Some? ==> r == ("", Some(NoCustomerId))
    ensures r.1.None? ==> r.0 == vars["customerId"] && r.0 != ""
  {
    if "customerId" !in vars || vars["customerId"] == "" then ("", Some(NoCustomerId))
    else (vars["customerId"], None)
  }

  // ------------------------------------------------------- call histories

  /** A call submitting an initial deposit of at least the minimum for account `id`. */
  ghost predicate IsOpeningDepositFor(c: Call, id: string) {
    c.CreateTransactionCall? && c.opts.initialDeposit && |c.tx.lines| == 1
    && c.tx.lines[0].accountId == id && c.tx.lines[0].purpose == ACHCredit
    && c.tx.lines[0].amount >= MinimumInitialBalance
  }

  /** Every deposit in a history directly follows the successful creation of
      the account it credits, for at least the minimum amount; and every
      successful creation is directly followed by its deposit. */
  ghost predicate DepositsPaired(trace: seq<Call>) {
    (forall i :: 0 <= i < |trace| && trace[i].CreateTransactionCall? ==>
      0 < i && trace[i - 1].CreateAccountCall? && trace[i - 1].createError.None?
      && IsOpeningDepositFor(trace[i], trace[i - 1].account.id))
    && (forall i :: 0 <= i < |trace| && trace[i].CreateAccountCall? && trace[i].createError.None? ==>
      i + 1 < |trace| && trace[i + 1].CreateTransactionCall?)
  }

  /** No two account creations in a history use the same account id. */
  ghost predicate DistinctAccountIds(trace: seq<Call>) {
    forall i, j :: 0 <= i < j < |trace| && trace[i].CreateAccountCall? && trace[j].CreateAccountCall? ==>
      trace[i].account.id != trace[j].account.id
  }

  /** `id` was not used by any account creation in the history. */
  ghost predicate FreshAccountId(id: string, trace: seq<Call>) {
    forall i :: 0 <= i < |trace| && trace[i].CreateAccountCall? ==> trace[i].account.id != id
  }

  ghost predicate HistoryInvariant(trace: seq<Call>) {
    DepositsPaired(trace) && DistinctAccountIds(trace)
  }

  /** The calls one creation request may append for account `id`: none;
      a failed creation alone; or a successful creation directly followed by
      the opening deposit of that account. */
  ghost predicate IsCreationBlock(calls: seq<Call>, id: string) {
    |calls| <= 2
    && (calls != [] ==> calls[0].CreateAccountCall? && calls[0].account.id == id)
    && (calls != [] ==> (|calls| == 2 <==> calls[0].createError.None?))
    && (|calls| == 2 ==> IsOpeningDepositFor(calls[1], id))
  }

  /** Appending a creation block keeps every deposit paired with the
      creation before it, and every successful creation with its deposit. */
  lemma BlockKeepsDepositsPaired(trace: seq<Call>, calls: seq<Call>, id: string)
    requires DepositsPaired(trace) && IsCreationBlock(calls, id)
    ensures DepositsPaired(trace + calls)
  {
    var t := trace + calls;
    var n := |trace|;
    forall i | 0 <= i < |t| && t[i].CreateTransactionCall?
      ensures 0 < i && t[i - 1].CreateAccountCall? && t[i - 1].createError.None?
        && IsOpeningDepositFor(t[i], t[i - 1].account.id)
    {
      if i < n {
        assert t[i] == trace[i] && t[i - 1] == trace[i - 1];
      } else {
        assert i == n + 1 && t[i] == calls[1] && t[i - 1] == calls[0];
      }
    }
    forall i | 0 <= i < |t| && t[i].CreateAccountCall? && t[i].createError.None?
      ensures i + 1 < |t| && t[i + 1].CreateTransactionCall?
    {
      if i < n {
        assert t[i] == trace[i];
        assert t[i + 1] == trace[i + 1];
      } else {
        assert i == n && t[i] == calls[0] && t[i + 1] == calls[1];
      }
    }
  }

  /** Appending a creation block for an unused id keeps account ids distinct. */
  lemma BlockKeepsIdsDistinct(trace: seq<Call>, calls: seq<Call>, id: string)
    requires DistinctAccountIds(trace) && FreshAccountId(id, trace) && IsCreationBlock(calls, id)
    ensures DistinctAccountIds(trace + calls)
  {
    var t := trace + calls;
    var n := |trace|;
    forall i, j | 0 <= i < j < |t| && t[i].CreateAccountCall? && t[j].CreateAccountCall?
      ensures t[i].account.id != t[j].account.id
    {
      if j < n {
        assert t[i] == trace[i] && t[j] == trace[j];
      } else {
        assert j == n && t[j] == calls[0] && t[i] == trace[i];
      }
    }
  }

  /** A creation request keeps the history invariant, given that the
      identity generator hands out an id it has not handed out before. */
  lemma CreationPreservesHistory(trace: seq<Call>, writerOk: bool, body: Decoded, ch: CreationChoices,
                                createResult: Option<RepoError>, txResult: Option<RepoError>)
    requires HistoryInvariant(trace) && FreshAccountId(ch.accountId, trace)
    ensures HistoryInvariant(trace + Creation(writerOk, body, ch, createResult, txResult).calls)
  {
    var calls := Creation(writerOk, body, ch, createResult, txResult).calls;
    if |calls| == 2 {
      assert IsInitialDepositCall(calls[1], calls[0].account.id, body.request.balance);
    }
    assert IsCreationBlock(calls, ch.accountId);
    BlockKeepsDepositsPaired(trace, calls, ch.accountId);
    BlockKeepsIdsDistinct(trace, calls, ch.accountId);
  }

  /** A search request keeps the history invariant. */
  lemma SearchPreservesHistory(trace: seq<Call>, writerOk: bool, q: Query,
                              routingResult: RepoResult<Option<Account>>,
                              customerResult: RepoResult<seq<Account>>)
    requires HistoryInvariant(trace)
    ensures HistoryInvariant(trace + Search(writerOk, q, routingResult, customerResult).calls)
  {
  }
}
