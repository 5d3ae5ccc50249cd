/** The two HTTP handlers as they run: step by step, with early returns,
    calling the account and transaction repositories through an object that
    records every call it receives. */
module Handlers {
  import opened Accounts

  /** The account repository and the transaction repository, seen from the
      handlers: each call is appended to `trace` and answers with the outcome
      the environment supplies. */
  class Repositories {
    var trace: seq<Call>

    /** The history of calls made so far obeys the pairing and freshness rules. */
    ghost predicate Valid()
      reads this
    {
      HistoryInvariant(trace)
    }

    constructor ()
      ensures Valid() && trace == []
    {
      trace := [];
    }

    /** `accountRepository.CreateAccount`. */
    method CreateAccount(customerId: string, account: Account, outcome: Option<RepoError>)
      returns (err: Option<RepoError>)
      modifies this
      ensures trace == old(trace) + [CreateAccountCall(customerId, account, outcome)]
      ensures err == outcome
    {
      trace := trace + [CreateAccountCall(customerId, account, outcome)];
      err := outcome;
    }

    /** `transactionRepository.createTransaction`. */
    method CreateTransaction(tx: Transaction, opts: TransactionOptions, outcome: Option<RepoError>)
      returns (err: Option<RepoError>)
      modifies this
      ensures trace == old(trace) + [CreateTransactionCall(tx, opts, outcome)]
      ensures err == outcome
    {
      trace := trace + [CreateTransactionCall(tx, opts, outcome)];
      err := outcome;
    }

    /** `accountRepository.SearchAccountsByRoutingNumber`. */
    method SearchAccountsByRoutingNumber(number: string, routingNumber: string, accountType: string,
                                         outcome: RepoResult<Option<Account>>)
      returns (result: RepoResult<Option<Account>>)
      modifies this
      ensures trace == old(trace) + [SearchByRoutingNumberCall(number, routingNumber, accountType)]
      ensures result == outcome
    {
      trace := trace + [SearchByRoutingNumberCall(number, routingNumber, accountType)];
      result := outcome;
    }

    /** `accountRepository.SearchAccountsByCustomerId`. */
    method SearchAccountsByCustomerId(customerId: string, outcome: RepoResult<seq<Account>>)
      returns (result: RepoResult<seq<Account>>)
      modifies this
      ensures trace == old(trace) + [SearchByCustomerIdCall(customerId)]
      ensures result == outcome
    {
      trace := trace + [SearchByCustomerIdCall(customerId)];
      result := outcome;
    }
  }

  /** One `POST /accounts` request against repositories whose history obeys
      the invariant: the response and the calls made are those `Creation`
      describes, and the invariant still holds afterwards. */
  method ServeCreateAccount(repos: Repositories, writerOk: bool, body: Decoded, ch: CreationChoices,
                              createOutcome: Option<RepoError>, txOutcome: Option<RepoError>)
    returns (resp: Response)
    requires repos.Valid() && FreshAccountId(ch.accountId, repos.trace)
    modifies repos
    ensures repos.Valid()
    ensures repos.trace == old(repos.trace) + Creation(writerOk, body, ch, createOutcome, txOutcome).calls
    ensures resp == Creation(writerOk, body, ch, createOutcome, txOutcome).response
  {
    ghost var before := repos.trace;
    resp := CreateAccountHandler(repos, writerOk, body, ch, createOutcome, txOutcome);
    CreationPreservesHistory(before, writerOk, body, ch, createOutcome, txOutcome);
  }

  /** The handler `createAccount` returns, in the order it runs, with its
      early returns: the response and the calls made are those `Creation`
      describes. */
  method CreateAccountHandler(repos: Repositories, writerOk: bool, body: Decoded, ch: CreationChoices,
                            createOutcome: Option<RepoError>, txOutcome: Option<RepoError>)
    returns (resp: Response)
    modifies repos
    ensures repos.trace == old(repos.trace) + Creation(writerOk, body, ch, createOutcome, txOutcome).calls
    ensures resp == Creation(writerOk, body, ch, createOutcome, txOutcome).response
  {
    if !writerOk {
      return Aborted;
    }
    if body.Malformed? {
      return ProblemResponse(MalformedJson(body.error));
    }
    var req := body.request;
    var invalid := Validate(req);
    if invalid.Some? {
      return ProblemResponse(InvalidRequest(invalid.value));
    }
    resp := PersistAndFund(repos, req, ch, createOutcome, txOutcome);
  }

  /** The second half of `createAccount`, once the request is valid: build
      and persist the account, then submit its initial deposit, stopping at
      the first repository error. */
  method PersistAndFund(repos: Repositories, req: CreateAccountRequest, ch: CreationChoices,
                        createOutcome: Option<RepoError>, txOutcome: Option<RepoError>)
    returns (resp: Response)
    requires Validate(req).None?
    modifies repos
    ensures repos.trace == old(repos.trace) + Creation(true, Decoded(req), ch, createOutcome, txOutcome).calls
    ensures resp == Creation(true, Decoded(req), ch, createOutcome, txOutcome).response
  {
    var account := NewAccount(req, ch);
    var err := repos.CreateAccount(req.customerId, account, createOutcome);
    ghost var created := CreateAccountCall(req.customerId, account, createOutcome);
    assert repos.trace == old(repos.trace) + [created];
    if err.Some? {
      return ProblemResponse(BackendError(err.value));
    }
    var tx := InitialDeposit(account, req, ch);
    err := repos.CreateTransaction(tx, TransactionOptions(true), txOutcome);
    assert repos.trace == old(repos.trace) + [created, CreateTransactionCall(tx, TransactionOptions(true), txOutcome)];
    if err.Some? {
      return ProblemResponse(BackendError(err.value));
    }
    resp := AccountBody(account);
  }

  /** One `GET /accounts/search` request against repositories whose history
      obeys the invariant, which still holds afterwards. */
  method ServeSearchAccounts(repos: Repositories, writerOk: bool, q: Query,
                             routingOutcome: RepoResult<Option<Account>>,
                             customerOutcome: RepoResult<seq<Account>>)
    returns (resp: Response)
    requires repos.Valid()
    modifies repos
    ensures repos.Valid()
    ensures repos.trace == old(repos.trace) + Search(writerOk, q, routingOutcome, customerOutcome).calls
    ensures resp == Search(writerOk, q, routingOutcome, customerOutcome).response
  {
    ghost var before := repos.trace;
    resp := SearchAccountsHandler(repos, writerOk, q, routingOutcome, customerOutcome);
    SearchPreservesHistory(before, writerOk, q, routingOutcome, customerOutcome);
  }

  /** The handler `searchAccounts` returns: the response and the calls made
      are those `Search` describes. */
  method SearchAccountsHandler(repos: Repositories, writerOk: bool, q: Query,
                               routingOutcome: RepoResult<Option<Account>>,
                               customerOutcome: RepoResult<seq<Account>>)
    returns (resp: Response)
    modifies repos
    ensures repos.trace == old(repos.trace) + Search(writerOk, q, routingOutcome, customerOutcome).calls
    ensures resp == Search(writerOk, q, routingOutcome, customerOutcome).response
  {
    if !writerOk {
      return Aborted;
    }
    var number, routingNumber, accountType := QueryGet(q, "number"), QueryGet(q, "routingNumber"), QueryGet(q, "type");
    if number != "" && routingNumber != "" && accountType != "" {
      var found := repos.SearchAccountsByRoutingNumber(number, routingNumber, accountType, routingOutcome);
      if found.Failed? || found.value.None? {
        return ProblemResponse(AccountNotFound(Cause(found)));
      }
      return AccountListBody([found.value.value]);
    }
    var customerId := QueryGet(q, "customerId");
    if customerId != "" {
      var found := repos.SearchAccountsByCustomerId(customerId, customerOutcome);
      if found.Failed? || |found.value| == 0 {
        return ProblemResponse(AccountNotFound(Cause(found)));
      }
      return AccountListBody(found.value);
    }
    resp := ProblemResponse(MissingSearchParameters);
  }
}
