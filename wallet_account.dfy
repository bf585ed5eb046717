/** `WalletConnection` (the sign-in session and the redirect hand-off to the
    wallet) and `ConnectedWalletAccount` (the account that picks an access key
    for each transaction, submits locally when it holds that key, and
    otherwise hands the transaction to the wallet). */
module WalletAccount {
  import opened Wrappers
  import Text
  import opened Urls
  import opened KeyStore
  import opened InMemoryStore
  import opened AccessKeys

  const LOGIN_WALLET_URL_SUFFIX: string := "/login/"
  const LOCAL_STORAGE_KEY_SUFFIX: string := "_wallet_auth_key"
  /** Prefix of the key-store account under which a generated, not yet confirmed key waits. */
  const PENDING_ACCESS_KEY_PREFIX: string := "pending_key"

  /** `_authData`: `{ accountId?, allKeys? }`; `{}` after sign-out has neither. */
  datatype AuthData = AuthData(accountId: Option<string>, allKeys: Option<seq<string>>)

  /** The parts of `stream.config` the connection reads. */
  datatype StreamConfig = StreamConfig(networkId: string, walletUrl: string)

  /** JavaScript truthiness of an optional string: present and not empty. */
  predicate Truthy(s: Option<string>) {
    s.Some? && s.value != ""
  }

  /** `s || default` */
  function Or(s: Option<string>, default: string): string {
    if Truthy(s) then s.value else default
  }

  /** `!!authData.accountId` */
  predicate SignedIn(authData: AuthData) {
    Truthy(authData.accountId)
  }

  /** `appKeyPrefix + LOCAL_STORAGE_KEY_SUFFIX`, taken before the prefix is
      defaulted, so a `null` prefix gives "null_wallet_auth_key"; an omitted
      (`undefined`) prefix is not represented. */
  function AuthDataKey(appKeyPrefix: Option<string>): string {
    appKeyPrefix.GetOr("null") + LOCAL_STORAGE_KEY_SUFFIX
  }

  /** `JSON.parse(localStorage.getItem(key)) || { allKeys: [] }` */
  function StoredAuthData(storage: map<string, AuthData>, key: string): AuthData {
    if key in storage then storage[key] else AuthData(None, Some([]))
  }

  /** The key-store account of the pending key with public key `publicKey`. */
  function PendingId(publicKey: string): string {
    PENDING_ACCESS_KEY_PREFIX + publicKey
  }

  // ---------------------------------------------------------------------------
  // The wallet requests

  /** The login query before the contract: where the wallet sends the user
      back on success and on failure, the current URL by default. */
  function SignInReturnQuery(success: string, failure: string): Query {
    SetParam(SetParam([], "success_url", success), "failure_url", failure)
  }

  /** A truthy contract id adds the contract and the fresh public key. */
  function WithContract(q: Query, contractId: Option<string>, publicKey: string): Query {
    if Truthy(contractId) then SetParam(SetParam(q, "contract_id", contractId.value), "public_key", publicKey) else q
  }

  /** Requested method names are appended one `methodNames` pair each. */
  function WithMethodNames(q: Query, methodNames: Option<seq<string>>): Query {
    if methodNames.Some? then AppendAll(q, "methodNames", methodNames.value) else q
  }

  /** The login query for the given return URLs. */
  function SignInQuery(success: string, failure: string, contractId: Option<string>, methodNames: Option<seq<string>>,
                       publicKey: string): Query
  {
    WithMethodNames(WithContract(SignInReturnQuery(success, failure), contractId, publicKey), methodNames)
  }

  /** The login query holds each return URL once, the contract and public key
      once each exactly when the contract id is truthy, and the method names. */
  lemma {:induction false} SignInQueryParams(success: string, failure: string, contractId: Option<string>,
                                             methodNames: Option<seq<string>>, publicKey: string)
    ensures var q := SignInQuery(success, failure, contractId, methodNames, publicKey);
      && GetAll(q, "success_url") == [success]
      && GetAll(q, "failure_url") == [failure]
      && GetAll(q, "contract_id") == (if Truthy(contractId) then [contractId.value] else [])
      && GetAll(q, "public_key") == (if Truthy(contractId) then [publicKey] else [])
      && GetAll(q, "methodNames") == methodNames.GetOr([])
  {
    var q0 := SetParam([], "success_url", success);
    var q1 := SetParam(q0, "failure_url", failure);
    SetParamSame([], "success_url", success);
    SetParamSame(q0, "failure_url", failure);
    SetParamOther(q0, "failure_url", failure, "success_url");
    SetParamOther([], "success_url", success, "contract_id");
    SetParamOther(q0, "failure_url", failure, "contract_id");
    SetParamOther([], "success_url", success, "public_key");
    SetParamOther(q0, "failure_url", failure, "public_key");
    SetParamOther([], "success_url", success, "methodNames");
    SetParamOther(q0, "failure_url", failure, "methodNames");
    var q3 := WithContract(q1, contractId, publicKey);
    if Truthy(contractId) {
      var q2 := SetParam(q1, "contract_id", contractId.value);
      SetParamSame(q1, "contract_id", contractId.value);
      SetParamSame(q2, "public_key", publicKey);
      SetParamOther(q2, "public_key", publicKey, "contract_id");
      SetParamOther(q1, "contract_id", contractId.value, "success_url");
      SetParamOther(q2, "public_key", publicKey, "success_url");
      SetParamOther(q1, "contract_id", contractId.value, "failure_url");
      SetParamOther(q2, "public_key", publicKey, "failure_url");
      SetParamOther(q1, "contract_id", contractId.value, "methodNames");
      SetParamOther(q2, "public_key", publicKey, "methodNames");
      SetParamOther(q1, "contract_id", contractId.value, "public_key");
    }
    if methodNames.Some? {
      var names := methodNames.value;
      AppendAllSame(q3, "methodNames", names);
      AppendAllOther(q3, "methodNames", names, "success_url");
      AppendAllOther(q3, "methodNames", names, "failure_url");
      AppendAllOther(q3, "methodNames", names, "contract_id");
      AppendAllOther(q3, "methodNames", names, "public_key");
    }
  }

  /** The wallet's login URL that `requestSignIn` navigates to. */
  function SignInUrl(walletBaseUrl: string, current: Url, contractId: Option<string>, methodNames: Option<seq<string>>,
                     successUrl: Option<string>, failureUrl: Option<string>, publicKey: string): Url
  {
    Url(walletBaseUrl + LOGIN_WALLET_URL_SUFFIX,
        SignInQuery(Or(successUrl, Href(current)), Or(failureUrl, Href(current)), contractId, methodNames, publicKey))
  }

  /** What the login URL carries: the success and failure URLs (the current
      URL by default), the contract and the fresh public key exactly when a
      contract is named, and every requested method name in order. */
  lemma {:induction false} SignInUrlParams(walletBaseUrl: string, current: Url, contractId: Option<string>, methodNames: Option<seq<string>>,
                                           successUrl: Option<string>, failureUrl: Option<string>, publicKey: string)
    ensures var q := SignInUrl(walletBaseUrl, current, contractId, methodNames, successUrl, failureUrl, publicKey).query;
      && GetAll(q, "success_url") == [Or(successUrl, Href(current))]
      && GetAll(q, "failure_url") == [Or(failureUrl, Href(current))]
      && GetAll(q, "contract_id") == (if Truthy(contractId) then [contractId.value] else [])
      && GetAll(q, "public_key") == (if Truthy(contractId) then [publicKey] else [])
      && GetAll(q, "methodNames") == methodNames.GetOr([])
  {
    SignInQueryParams(Or(successUrl, Href(current)), Or(failureUrl, Href(current)), contractId, methodNames, publicKey);
  }

  /** The wallet's signing URL that `requestSignTransactions` navigates to;
      `signPage` is `new URL('sign', walletBaseUrl)` and `serialize` stands for
      borsh serialization followed by base64. */
  function SignTransactionsUrl(signPage: string, current: Url, transactions: seq<Transaction>,
                               meta: Option<string>, callbackUrl: Option<string>, serialize: Transaction -> string): Url
  {
    var encoded := seq(|transactions|, i requires 0 <= i < |transactions| => serialize(transactions[i]));
    var q0 := SetParam([], "transactions", Text.Join(encoded, ','));
    var q1 := SetParam(q0, "callbackUrl", Or(callbackUrl, Href(current)));
    var q2 := if Truthy(meta) then SetParam(q1, "meta", meta.value) else q1;
    Url(signPage, q2)
  }

  /** The signing URL for one transaction carries exactly that transaction, the
      callback URL (the current URL by default) and `meta` only when given. */
  lemma {:induction false} SignTransactionsUrlParams(signPage: string, current: Url, tx: Transaction,
                                                     meta: Option<string>, callbackUrl: Option<string>, serialize: Transaction -> string)
    ensures var q := SignTransactionsUrl(signPage, current, [tx], meta, callbackUrl, serialize).query;
      && GetAll(q, "transactions") == [serialize(tx)]
      && GetAll(q, "callbackUrl") == [Or(callbackUrl, Href(current))]
      && GetAll(q, "meta") == (if Truthy(meta) then [meta.value] else [])
  {
    var encoded := seq(1, i requires 0 <= i < 1 => serialize([tx][i]));
    assert encoded == [serialize(tx)];
    var joined := Text.Join(encoded, ',');
    assert joined == serialize(tx);
    var callback := Or(callbackUrl, Href(current));
    var q0 := SetParam([], "transactions", joined);
    var q1 := SetParam(q0, "callbackUrl", callback);
    SetParamSame([], "transactions", joined);
    SetParamSame(q0, "callbackUrl", callback);
    SetParamOther(q0, "callbackUrl", callback, "transactions");
    SetParamOther([], "transactions", joined, "meta");
    SetParamOther(q0, "callbackUrl", callback, "meta");
    if Truthy(meta) {
      SetParamSame(q1, "meta", meta.value);
      SetParamOther(q1, "meta", meta.value, "transactions");
      SetParamOther(q1, "meta", meta.value, "callbackUrl");
    }
  }

  /** The `transactions` parameter of a non-empty hand-off splits back into the
      transactions' encodings, in order, when no encoding contains a comma. */
  lemma {:induction false} SignTransactionsUrlSplits(signPage: string, current: Url, txs: seq<Transaction>,
                                                     meta: Option<string>, callbackUrl: Option<string>, serialize: Transaction -> string)
    requires |txs| >= 1
    requires forall i :: 0 <= i < |txs| ==> ',' !in serialize(txs[i])
    ensures var q := SignTransactionsUrl(signPage, current, txs, meta, callbackUrl, serialize).query;
      && Get(q, "transactions").Some?
      && Text.Split(Get(q, "transactions").value, ',') == seq(|txs|, i requires 0 <= i < |txs| => serialize(txs[i]))
  {
    var encoded := seq(|txs|, i requires 0 <= i < |txs| => serialize(txs[i]));
    var joined := Text.Join(encoded, ',');
    var callback := Or(callbackUrl, Href(current));
    var q0 := SetParam([], "transactions", joined);
    var q1 := SetParam(q0, "callbackUrl", callback);
    SetParamSame([], "transactions", joined);
    SetParamOther(q0, "callbackUrl", callback, "transactions");
    if Truthy(meta) {
      SetParamOther(q1, "meta", meta.value, "transactions");
    }
    Text.SplitJoin(encoded, ',');
  }

  // ---------------------------------------------------------------------------
  // Resuming after the wallet redirects back

  /** The state the resume step reads and writes: the session, the browser's
      storage, the key store's entries and the current URL. */
  datatype SessionState = SessionState(authData: AuthData, storage: map<string, AuthData>, keys: Entries, location: Url)

  /** The query parameters the resume step always removes. */
  function StripResumeParams(q: Query): Query {
    Delete(Delete(Delete(Delete(Delete(q, "public_key"), "all_keys"), "account_id"), "meta"), "transactionHashes")
  }

  /** `_moveKeyFromTempToPermanent` on the store's entries: the pending key
      moves to the account's slot; with no pending key, `null` reaches `setKey`. */
  function PromoteKeys(keys: Entries, networkId: string, accountId: string, publicKey: string): Result<Entries, WalletError> {
    match Lookup(keys, networkId, PendingId(publicKey))
    case None => Err(NullKeyPair)
    case Some(keyPair) => Ok(keys[(networkId, accountId) := keyPair] - {(networkId, PendingId(publicKey))})
  }

  /** `_completeSignInWithAccessKey` on the state. When the promotion fails the
      error propagates before `_authData` is set and before the URL is cleaned,
      but after the session was written to storage. */
  function Resume(authDataKey: string, networkId: string, s: SessionState): (Outcome<WalletError>, SessionState) {
    var q := s.location.query;
    var publicKey := Get(q, "public_key").GetOr("");
    var allKeys := Text.Split(Get(q, "all_keys").GetOr(""), ',');
    var accountId := Get(q, "account_id").GetOr("");
    var cleaned := Url(s.location.base, StripResumeParams(q));
    if accountId != "" then
      var data := AuthData(Some(accountId), Some(allKeys));
      var storage := s.storage[authDataKey := data];
      if publicKey != "" then
        match PromoteKeys(s.keys, networkId, accountId, publicKey)
        case Err(e) => (Fail(e), s.(storage := storage))
        case Ok(keys) => (Pass, SessionState(data, storage, keys, cleaned))
      else (Pass, s.(authData := data, storage := storage, location := cleaned))
    else (Pass, s.(location := cleaned))
  }

  /** Promotion moves exactly one entry: the account's slot gets the pending
      key, the pending slot is emptied, every other slot is untouched. */
  lemma PromoteMovesOneEntry(keys: Entries, networkId: string, accountId: string, publicKey: string, keyPair: KeyPair)
    requires Lookup(keys, networkId, PendingId(publicKey)) == Some(keyPair)
    requires accountId != PendingId(publicKey)
    ensures PromoteKeys(keys, networkId, accountId, publicKey).Ok?
    ensures var moved := PromoteKeys(keys, networkId, accountId, publicKey).value;
      && Lookup(moved, networkId, accountId) == Some(keyPair)
      && Lookup(moved, networkId, PendingId(publicKey)) == None
      && forall n, a :: (n, a) != (networkId, accountId) && (n, a) != (networkId, PendingId(publicKey))
                        ==> Lookup(moved, n, a) == Lookup(keys, n, a)
  {
  }

  /** If the account id is the pending slot's own name, the copy is removed
      with the pending slot and the key is gone. */
  lemma PromoteOntoPendingSlotLosesKey(keys: Entries, networkId: string, publicKey: string)
    requires Lookup(keys, networkId, PendingId(publicKey)).Some?
    ensures var moved := PromoteKeys(keys, networkId, PendingId(publicKey), publicKey);
      moved.Ok? && Lookup(moved.value, networkId, PendingId(publicKey)) == None
  {
  }

  /** Stripping removes the five resume parameters and keeps every other one. */
  lemma {:induction false} StripRemovesResumeParams(q: Query)
    ensures var r := StripResumeParams(q);
      && !Has(r, "public_key") && !Has(r, "all_keys") && !Has(r, "account_id")
      && !Has(r, "meta") && !Has(r, "transactionHashes")
      && forall m :: m !in {"public_key", "all_keys", "account_id", "meta", "transactionHashes"} ==> GetAll(r, m) == GetAll(q, m)
  {
    var q1 := Delete(q, "public_key");
    var q2 := Delete(q1, "all_keys");
    var q3 := Delete(q2, "account_id");
    var q4 := Delete(q3, "meta");
    var q5 := Delete(q4, "transactionHashes");
    DeleteOther(q1, "all_keys", "public_key");
    DeleteOther(q2, "account_id", "public_key");
    DeleteOther(q3, "meta", "public_key");
    DeleteOther(q4, "transactionHashes", "public_key");
    DeleteOther(q2, "account_id", "all_keys");
    DeleteOther(q3, "meta", "all_keys");
    DeleteOther(q4, "transactionHashes", "all_keys");
    DeleteOther(q3, "meta", "account_id");
    DeleteOther(q4, "transactionHashes", "account_id");
    DeleteOther(q4, "transactionHashes", "meta");
    forall m | m !in {"public_key", "all_keys", "account_id", "meta", "transactionHashes"}
      ensures GetAll(q5, m) == GetAll(q, m)
    {
      DeleteOther(q, "public_key", m);
      DeleteOther(q1, "all_keys", m);
      DeleteOther(q2, "account_id", m);
      DeleteOther(q3, "meta", m);
      DeleteOther(q4, "transactionHashes", m);
    }
  }

  /** A completed resume leaves no resume parameter in the URL and keeps the rest. */
  lemma {:induction false} ResumeCleansUrl(authDataKey: string, networkId: string, s: SessionState)
    requires Resume(authDataKey, networkId, s).0.Pass?
    ensures var url := Resume(authDataKey, networkId, s).1.location;
      && url.base == s.location.base
      && url.query == StripResumeParams(s.location.query)
      && !Has(url.query, "public_key") && !Has(url.query, "all_keys") && !Has(url.query, "account_id")
      && !Has(url.query, "meta") && !Has(url.query, "transactionHashes")
  {
    StripRemovesResumeParams(s.location.query);
  }

  /** A non-empty `account_id` signs the session in with the returned keys and
      persists the same data; a missing `all_keys` gives the one key "". */
  lemma {:induction false} ResumeSignsIn(authDataKey: string, networkId: string, s: SessionState, accountId: string)
    requires Get(s.location.query, "account_id") == Some(accountId) && accountId != ""
    requires Resume(authDataKey, networkId, s).0.Pass?
    ensures var t := Resume(authDataKey, networkId, s).1;
      var allKeys := Text.Split(Get(s.location.query, "all_keys").GetOr(""), ',');
      && t.authData == AuthData(Some(accountId), Some(allKeys))
      && SignedIn(t.authData)
      && t.storage == s.storage[authDataKey := t.authData]
      && (!Has(s.location.query, "all_keys") ==> allKeys == [""])
  {
    Text.SplitEmpty(',');
  }

  /** With a public key as well, the resume promotes the pending key or, when
      none is there, fails with the session already persisted but not set. */
  lemma {:induction false} ResumePromotes(authDataKey: string, networkId: string, s: SessionState, accountId: string, publicKey: string)
    requires Get(s.location.query, "account_id") == Some(accountId) && accountId != ""
    requires Get(s.location.query, "public_key") == Some(publicKey) && publicKey != ""
    ensures var (outcome, t) := Resume(authDataKey, networkId, s);
      match PromoteKeys(s.keys, networkId, accountId, publicKey)
      case Ok(keys) => outcome.Pass? && t.keys == keys
      case Err(e) => outcome == Fail(e) && t.keys == s.keys && t.authData == s.authData
                     && t.location == s.location
                     && t.storage == s.storage[authDataKey := AuthData(Some(accountId), Some(Text.Split(Get(s.location.query, "all_keys").GetOr(""), ',')))]
                     && SignedIn(StoredAuthData(t.storage, authDataKey))
                     && (SignedIn(s.authData) <==> SignedIn(t.authData))
  {
  }

  /** Without an account id the resume only cleans the URL. */
  lemma ResumeWithoutAccount(authDataKey: string, networkId: string, s: SessionState)
    requires !Truthy(Get(s.location.query, "account_id"))
    ensures var (outcome, t) := Resume(authDataKey, networkId, s);
      outcome.Pass? && t.authData == s.authData && t.storage == s.storage && t.keys == s.keys
  {
  }

  // ---------------------------------------------------------------------------
  // Browser state

  /** The browser globals the connection touches. */
  class Window {
    /** `window.location`, changed in place by `history.replaceState` */
    var location: Url
    /** `window.localStorage`, holding the parsed session data */
    var localStorage: map<string, AuthData>
    /** every URL passed to `window.location.assign`, oldest first */
    var navigations: seq<Url>
    /** `new URL(relative, base)`, as the browser resolves it */
    const resolveUrl: (string, string) -> string

    constructor(location: Url, localStorage: map<string, AuthData>, resolveUrl: (string, string) -> string)
      ensures this.location == location && this.localStorage == localStorage
      ensures this.resolveUrl == resolveUrl && navigations == []
    {
      this.location := location;
      this.localStorage := localStorage;
      this.resolveUrl := resolveUrl;
      navigations := [];
    }
  }

  // ---------------------------------------------------------------------------
  // The connection

  class WalletConnection {
    const networkId: string
    const walletBaseUrl: string
    const authDataKey: string
    /** `stream.connection.signer.keyStore` */
    const keyStore: InMemoryKeyStore
    const window: Window
    var authData: AuthData
    var connectedAccount: ConnectedWalletAccount?
    /** how the resume started by the constructor ended; `None` when it was not started */
    var completeSignIn: Option<Outcome<WalletError>>

    /** The state `Resume` works on, as it is now. */
    function Session(): SessionState
      reads this, window, keyStore
    {
      SessionState(authData, window.localStorage, keyStore.keys, window.location)
    }

    /** Reads the persisted session; when it is not signed in, runs the resume
        step for the current URL. */
    constructor(config: StreamConfig, keyStore: InMemoryKeyStore, window: Window, appKeyPrefix: Option<string>)
      modifies window, keyStore
      ensures networkId == config.networkId && walletBaseUrl == config.walletUrl
      ensures authDataKey == AuthDataKey(appKeyPrefix)
      ensures this.keyStore == keyStore && this.window == window && connectedAccount == null
      ensures window.navigations == old(window.navigations)
      ensures var initial := StoredAuthData(old(window.localStorage), AuthDataKey(appKeyPrefix));
              var before := SessionState(initial, old(window.localStorage), old(keyStore.keys), old(window.location));
        if SignedIn(initial) then
          completeSignIn == None && Session() == before
        else
          completeSignIn == Some(Resume(authDataKey, networkId, before).0)
          && Session() == Resume(authDataKey, networkId, before).1
    {
      networkId := config.networkId;
      walletBaseUrl := config.walletUrl;
      this.keyStore := keyStore;
      this.window := window;
      authDataKey := AuthDataKey(appKeyPrefix);
      authData := StoredAuthData(window.localStorage, AuthDataKey(appKeyPrefix));
      connectedAccount := null;
      completeSignIn := None;
      new;
      if !IsSignedIn() {
        var outcome := CompleteSignInWithAccessKey();
        completeSignIn := Some(outcome);
      }
    }

    /** `isSignedIn()` */
    predicate IsSignedIn()
      reads this
    {
      SignedIn(authData)
    }

    /** The signed-in account, or "" exactly when not signed in. */
    function GetAccountId(): (r: string)
      reads this
      ensures r != "" <==> IsSignedIn()
      ensures IsSignedIn() ==> authData.accountId == Some(r)
    {
      authData.accountId.GetOr("")
    }

    /** `isSignedInAsync()`: the resume's failure, or whether the session is signed in. */
    method IsSignedInAsync() returns (r: Result<bool, WalletError>)
      ensures completeSignIn.Some? && completeSignIn.value.Fail? ==> r == Err(completeSignIn.value.error)
      ensures !(completeSignIn.Some? && completeSignIn.value.Fail?) ==> r == Ok(IsSignedIn())
    {
      if completeSignIn.Some? && completeSignIn.value.Fail? {
        return Err(completeSignIn.value.error);
      }
      r := Ok(IsSignedIn());
    }

    /** `requestSignIn`: checks the contract account names a real account,
        stores a fresh key under the pending slot and navigates to the login page. */
    method RequestSignIn(contractId: Option<string>, methodNames: Option<seq<string>>, successUrl: Option<string>, failureUrl: Option<string>,
                         contractExists: bool, freshKey: KeyPair) returns (r: Outcome<WalletError>)
      modifies keyStore, window
      ensures window.location == old(window.location) && window.localStorage == old(window.localStorage)
      ensures Truthy(contractId) && !contractExists ==>
        && r == Fail(ContractAccountMissing(contractId.value))
        && keyStore.keys == old(keyStore.keys) && window.navigations == old(window.navigations)
      ensures !(Truthy(contractId) && !contractExists) ==>
        && r == Pass
        && keyStore.keys == (if Truthy(contractId) then old(keyStore.keys)[(networkId, PendingId(freshKey.publicKey)) := freshKey]
                             else old(keyStore.keys))
        && window.navigations == old(window.navigations)
             + [SignInUrl(walletBaseUrl, old(window.location), contractId, methodNames, successUrl, failureUrl, freshKey.publicKey)]
    {
      var currentUrl := window.location;
      var query: Query := [];
      query := SetParam(query, "success_url", Or(successUrl, Href(currentUrl)));
      query := SetParam(query, "failure_url", Or(failureUrl, Href(currentUrl)));
      assert query == SignInReturnQuery(Or(successUrl, Href(currentUrl)), Or(failureUrl, Href(currentUrl)));
      ghost var returnQuery := query;
      if Truthy(contractId) {
        if !contractExists {
          return Fail(ContractAccountMissing(contractId.value));
        }
        query := SetParam(query, "contract_id", contractId.value);
        query := SetParam(query, "public_key", freshKey.publicKey);
        keyStore.SetKey(networkId, PendingId(freshKey.publicKey), freshKey);
      }
      assert query == WithContract(returnQuery, contractId, freshKey.publicKey);
      if methodNames.Some? {
        query := AppendEach(query, "methodNames", methodNames.value);
      }
      window.navigations := window.navigations + [Url(walletBaseUrl + LOGIN_WALLET_URL_SUFFIX, query)];
      r := Pass;
    }

    /** `requestSignTransactions`: navigates to the wallet's signing page with the
        serialized transactions. */
    method RequestSignTransactions(transactions: seq<Transaction>, meta: Option<string>, callbackUrl: Option<string>,
                                   serialize: Transaction -> string)
      modifies window
      ensures window.location == old(window.location) && window.localStorage == old(window.localStorage)
      ensures window.navigations == old(window.navigations)
        + [SignTransactionsUrl(window.resolveUrl("sign", walletBaseUrl), old(window.location), transactions, meta, callbackUrl, serialize)]
    {
      var currentUrl := window.location;
      var encoded := seq(|transactions|, i requires 0 <= i < |transactions| => serialize(transactions[i]));
      var query: Query := [];
      query := SetParam(query, "transactions", Text.Join(encoded, ','));
      query := SetParam(query, "callbackUrl", Or(callbackUrl, Href(currentUrl)));
      if Truthy(meta) {
        query := SetParam(query, "meta", meta.value);
      }
      window.navigations := window.navigations + [Url(window.resolveUrl("sign", walletBaseUrl), query)];
    }

    /** `_completeSignInWithAccessKey`: follows `Resume`. */
    method CompleteSignInWithAccessKey() returns (r: Outcome<WalletError>)
      modifies this, window, keyStore
      ensures (r, Session()) == Resume(authDataKey, networkId, old(Session()))
      ensures window.navigations == old(window.navigations)
      ensures connectedAccount == old(connectedAccount) && completeSignIn == old(completeSignIn)
    {
      var currentUrl := window.location;
      var publicKey := Get(currentUrl.query, "public_key").GetOr("");
      var allKeys := Text.Split(Get(currentUrl.query, "all_keys").GetOr(""), ',');
      var accountId := Get(currentUrl.query, "account_id").GetOr("");
      if accountId != "" {
        var data := AuthData(Some(accountId), Some(allKeys));
        window.localStorage := window.localStorage[authDataKey := data];
        if publicKey != "" {
          var moved := MoveKeyFromTempToPermanent(accountId, publicKey);
          if moved.Fail? {
            return moved;
          }
        }
        authData := data;
      }
      var query := currentUrl.query;
      query := Delete(query, "public_key");
      query := Delete(query, "all_keys");
      query := Delete(query, "account_id");
      query := Delete(query, "meta");
      query := Delete(query, "transactionHashes");
      window.location := Url(currentUrl.base, query);
      r := Pass;
    }

    /** `_moveKeyFromTempToPermanent`: copies the pending key to the account's
        slot, then empties the pending slot. */
    method MoveKeyFromTempToPermanent(accountId: string, publicKey: string) returns (r: Outcome<WalletError>)
      modifies keyStore
      ensures match PromoteKeys(old(keyStore.keys), networkId, accountId, publicKey)
        case Ok(keys) => r == Pass && keyStore.keys == keys
        case Err(e) => r == Fail(e) && keyStore.keys == old(keyStore.keys)
    {
      var keyPair := keyStore.GetKey(networkId, PendingId(publicKey));
      if keyPair.None? {
        return Fail(NullKeyPair);
      }
      keyStore.SetKey(networkId, accountId, keyPair.value);
      keyStore.RemoveKey(networkId, PendingId(publicKey));
      r := Pass;
    }

    /** `signOut()`: forgets the session in memory and in storage; the key store keeps its keys. */
    method SignOut()
      modifies this, window
      ensures authData == AuthData(None, None) && !IsSignedIn()
      ensures window.localStorage == old(window.localStorage) - {authDataKey}
      ensures window.location == old(window.location) && window.navigations == old(window.navigations)
      ensures connectedAccount == old(connectedAccount) && completeSignIn == old(completeSignIn)
    {
      authData := AuthData(None, None);
      window.localStorage := window.localStorage - {authDataKey};
    }

    /** `account()`: the account object, created on first use for the account
        signed in at that moment and returned unchanged afterwards. */
    method Account() returns (a: ConnectedWalletAccount)
      modifies this
      ensures connectedAccount == a && authData == old(authData) && completeSignIn == old(completeSignIn)
      ensures old(connectedAccount) != null ==> a == old(connectedAccount)
      ensures old(connectedAccount) == null ==> fresh(a) && a.walletConnection == this && a.accountId == authData.accountId
    {
      if connectedAccount == null {
        connectedAccount := new ConnectedWalletAccount(this, authData.accountId);
      }
      a := connectedAccount;
    }
  }

  // ---------------------------------------------------------------------------
  // The account

  class ConnectedWalletAccount {
    const walletConnection: WalletConnection
    /** the account id the object was created with; `None` before sign-in */
    const accountId: Option<string>

    constructor(walletConnection: WalletConnection, accountId: Option<string>)
      ensures this.walletConnection == walletConnection && this.accountId == accountId
    {
      this.walletConnection := walletConnection;
      this.accountId := accountId;
    }

    /** `accessKeyForTransaction`: tries the local key, then the fetched keys in
        order among those the wallet reported; follows `SelectKey`. */
    method AccessKeyForTransaction(accessKeys: seq<AccessKeyInfo>, receiverId: string, actions: seq<Action>, localKey: Option<string>)
      returns (r: Result<Option<AccessKeyInfo>, WalletError>)
      ensures r == SelectKey(accountId, walletConnection.authData.allKeys, accessKeys, receiverId, actions, localKey)
    {
      if localKey.Some? {
        var accessKey := FindByPublicKey(accessKeys, localKey.value);
        if accessKey.Some? && AccessKeyMatchesTransaction(accountId, accessKey.value, receiverId, actions) {
          return Ok(accessKey);
        }
      }
      var walletKeys := walletConnection.authData.allKeys;
      var i := 0;
      while i < |accessKeys|
        invariant 0 <= i <= |accessKeys|
        invariant walletKeys.None? ==> i == 0
        invariant walletKeys.Some? ==>
          forall j :: 0 <= j < i ==> !WalletCandidate(accountId, walletKeys.value, accessKeys[j], receiverId, actions)
      {
        if walletKeys.None? {
          return Err(WalletKeysUndefined);
        }
        if accessKeys[i].publicKey in walletKeys.value && AccessKeyMatchesTransaction(accountId, accessKeys[i], receiverId, actions) {
          return Ok(Some(accessKeys[i]));
        }
        i := i + 1;
      }
      return Ok(None);
    }

    /** `signAndSendTransaction`: follows `PlanDispatch`. A local outcome is
        returned; a hand-off navigates to the wallet with the one transaction
        and still ends with `FailedToRedirect`. */
    method SignAndSendTransaction(receiverId: string, actions: seq<Action>, walletMeta: Option<string>, walletCallbackUrl: Option<string>,
                                  accessKeys: seq<AccessKeyInfo>, localKey: Option<string>, localSubmit: SubmitOutcome,
                                  blockHash: seq<bv8>, serialize: Transaction -> string)
      returns (r: Result<string, WalletError>)
      modifies walletConnection.window
      ensures walletConnection.window.location == old(walletConnection.window.location)
      ensures walletConnection.window.localStorage == old(walletConnection.window.localStorage)
      ensures match PlanDispatch(accountId, walletConnection.authData.allKeys, accessKeys, receiverId, actions, localKey, localSubmit, blockHash)
        case LocalOutcome(outcome) => r == Ok(outcome) && walletConnection.window.navigations == old(walletConnection.window.navigations)
        case Throw(e) => r == Err(e) && walletConnection.window.navigations == old(walletConnection.window.navigations)
        case Redirect(tx) =>
          && r == Err(FailedToRedirect)
          && walletConnection.window.navigations == old(walletConnection.window.navigations)
               + [SignTransactionsUrl(walletConnection.window.resolveUrl("sign", walletConnection.walletBaseUrl),
                                      old(walletConnection.window.location), [tx], walletMeta,
                                      Some(walletCallbackUrl.GetOr(Href(old(walletConnection.window.location)))), serialize)]
    {
      var callbackUrl := walletCallbackUrl.GetOr(Href(walletConnection.window.location));
      var selected := AccessKeyForTransaction(accessKeys, receiverId, actions, localKey);
      if selected.Err? {
        return Err(selected.error);
      }
      var accessKey := selected.value;
      if accessKey.None? {
        return Err(CannotFindMatchingKey(receiverId));
      }
      if localKey.Some? && localKey.value == accessKey.value.publicKey {
        match localSubmit {
          case Submitted(outcome) =>
            return Ok(outcome);
          case Rejected(errorType) =>
            if errorType == NOT_ENOUGH_ALLOWANCE {
              var retried := AccessKeyForTransaction(accessKeys, receiverId, actions, None);
              if retried.Err? {
                return Err(retried.error);
              }
              accessKey := retried.value;
            } else {
              return Err(Rethrown(errorType));
            }
        }
      }
      if accessKey.None? {
        return Err(NullAccessKey);
      }
      var transaction := BuildTransaction(accountId, accessKey.value, receiverId, actions, blockHash);
      walletConnection.RequestSignTransactions([transaction], walletMeta, Some(callbackUrl), serialize);
      r := Err(FailedToRedirect);
    }
  }
}
