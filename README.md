# Wallet access-key authorization and hand-off, in Dafny

This project models the browser wallet layer of a JavaScript client library for
an account-based blockchain. It has two parts.

- `WalletConnection` keeps the sign-in session. It sends the user to the
  wallet's login page. When the wallet redirects back, it records the returned
  account and keys, promotes the pending access key, and cleans the URL.
- `ConnectedWalletAccount` picks an access key for each outgoing transaction.
  It submits locally when the picked key is the local key. After an
  exhausted-allowance rejection it selects again. Otherwise it hands one
  unsigned transaction to the wallet's signing page.

It also models the key-store layer those classes read and write. That layer has
an in-memory store keyed by (network, account) and a merge store that layers an
ordered array of stores.

Modules, one per file:

- `Wrappers` (`wrappers.dfy`): `Option`, `Result` and `Outcome`.
- `Text` (`text.dfy`): `split` and `join` on one separator character.
- `Urls` (`url.dfy`): a URL as a base plus an ordered query. It has the
  `URLSearchParams` operations `get`, `getAll`, `set`, `append` and `delete`,
  and `href`.
- `KeyStore` (`keystore.dfy`): key pairs, store entries, and what the
  getters report.
- `InMemoryStore` (`in_memory_key_store.dfy`): class `InMemoryKeyStore`.
- `MergeStore` (`merge_key_store.dfy`): class `MergeKeyStore`.
- `AccessKeys` (`access_keys.dfy`): the permission matcher, key selection,
  and the dispatch path of `signAndSendTransaction`.
- `WalletAccount` (`wallet_account.dfy`): the browser state (`Window`) and
  the classes `WalletConnection` and `ConnectedWalletAccount`.

How the model relates to the code:

- Pure decisions are functions, with lemmas stating their truth tables:
  matching, selection, the dispatch plan, the resume step, and the wallet URLs.
- The classes are Dafny classes. Their methods update `authData`, the key
  store, `window.location`, `localStorage` and the navigation log in place.
- The resume, key-selection and dispatch methods are proved equal to the
  functions that specify them. The other methods, such as `signOut`,
  `account`, `isSignedInAsync` and the store methods, state their results and
  new state directly in their contracts.
- The code's loops are real loops with invariants: among them the search over
  the fetched keys in `accessKeyForTransaction`, the `forEach` over the method
  names, and the merge store's search through its stores.

Inputs the code fetches or computes outside this core become method
parameters:

- the access-key list;
- the local public key;
- the outcome of the inherited local submission;
- the final block hash;
- the fresh key pair;
- whether the contract account exists;
- the transaction serializer.

The browser's relative-URL resolver is the `resolveUrl` field of the `Window`,
given to its constructor.

Where the two disagree, the model follows the code:

- Key selection after an exhausted allowance runs with no local hint. It can
  still pick the local key itself, when that key is also one the wallet
  reported. The dispatch then redirects with that key. Nothing forces the
  retried key to differ from the first one.
- The merge store's `setKey` comment says "the first index". The constructor's
  comment says that `writeKeyStoreIndex` receives all writes. The model writes
  to `writeKeyStoreIndex`, which defaults to 0.

## Model

| member | source | states |
|---|---|---|
| Text.Join | lib/wallet-account.js:173 | `join(',')`, defined by recursion on the parts; its properties are stated by `Text.JoinSplit` and `Text.SplitJoin` |
| Text.Split | lib/wallet-account.js:188 | `split(',')` returns at least one part, and no part contains the separator |
| Text.SplitEmpty | lib/wallet-account.js:188 | splitting the empty string gives the single empty part, so a missing `all_keys` becomes `[""]` |
| Text.JoinSplit | lib/wallet-account.js:170-173 | joining the parts of a split with the same separator gives the original string back |
| Text.SplitJoin | lib/wallet-account.js:170-173 | splitting a join of separator-free parts gives exactly those parts back, so the joined `transactions` parameter can be taken apart again (`WalletAccount.SignTransactionsUrlSplits`) |
| Urls.Get | lib/wallet-account.js:187-189 | `get` finds nothing exactly when no pair carries the name |
| Urls.GetAll | lib/wallet-account.js:155-159 | `getAll` is empty exactly when no pair carries the name, and otherwise its first value is what `get` returns |
| Urls.SetParam | lib/wallet-account.js:144-152 | `set`: the first pair of the name takes the value and later pairs of that name go, or the pair is appended; its properties are stated by `Urls.SetParamSame` and `Urls.SetParamOther` |
| Urls.SetParamSame | lib/wallet-account.js:144-145 | after `set`, the name has exactly the one value set, and `get` returns it |
| Urls.SetParamOther | lib/wallet-account.js:144-152 | `set` changes neither the values nor the `get` of any other name |
| Urls.Append | lib/wallet-account.js:157 | `append` adds one pair at the end; its properties are stated by `Urls.AppendSame` and `Urls.AppendOther` |
| Urls.AppendSame | lib/wallet-account.js:157 | `append` puts its value last among the name's values |
| Urls.AppendOther | lib/wallet-account.js:157 | `append` leaves every other name's values unchanged |
| Urls.AppendAll | lib/wallet-account.js:155-159 | the `forEach` of `append` over the method names; its properties are stated by `Urls.AppendAllSame` and `Urls.AppendAllOther`, and `Urls.AppendEach` is the loop proved equal to it |
| Urls.AppendAllSame | lib/wallet-account.js:155-159 | after the `forEach`, the name's values end with all the given values, in order |
| Urls.AppendAllOther | lib/wallet-account.js:155-159 | the `forEach` leaves every other name's values unchanged |
| Urls.AppendEach | lib/wallet-account.js:156-158 | the loop that appends one pair per method name computes the whole `forEach` |
| Urls.Delete | lib/wallet-account.js:202-206 | after `delete`, the name is absent |
| Urls.DeleteOther | lib/wallet-account.js:202-206 | `delete` changes neither the values nor the `get` of any other name |
| Urls.Href | lib/wallet-account.js:160 | `href` is the base, then `?` and the `name=value` pairs joined by `&` when the query is non-empty; the wallet URLs built from it are stated by `WalletAccount.SignInUrlParams` and `WalletAccount.SignTransactionsUrlParams` through their query |
| KeyStore.ToArray | lib/key_stores/in_memory_key_store.d.ts:58-67 | the array holds each member of the set exactly once and nothing else |
| InMemoryStore.InMemoryKeyStore.constructor | lib/key_stores/in_memory_key_store.d.ts:32-33 | a new store holds no entry |
| InMemoryStore.InMemoryKeyStore.SetKey | lib/key_stores/in_memory_key_store.d.ts:34-40 | afterwards `getKey` on the slot returns the stored pair, and every other slot reads as before |
| InMemoryStore.InMemoryKeyStore.GetKey | lib/key_stores/in_memory_key_store.d.ts:41-47 | the result is the slot's lookup in the entries (the stored pair, or nothing when the slot is empty), and the store is not changed |
| InMemoryStore.InMemoryKeyStore.RemoveKey | lib/key_stores/in_memory_key_store.d.ts:48-53 | afterwards `getKey` on the slot finds nothing, and every other slot reads as before |
| InMemoryStore.InMemoryKeyStore.Clear | lib/key_stores/in_memory_key_store.d.ts:54-57 | afterwards no entry remains and there are no networks |
| InMemoryStore.InMemoryKeyStore.GetNetworks | lib/key_stores/in_memory_key_store.d.ts:58-62 | each network with at least one stored key, once each, and no other |
| InMemoryStore.InMemoryKeyStore.GetAccounts | lib/key_stores/in_memory_key_store.d.ts:63-67 | each account stored under the network, once each, and no other |
| MergeStore.MergeKeyStore.constructor | lib/key_stores/merge_key_store.d.ts:39-46 | it keeps the stores in read order, and the write index defaults to 0 |
| MergeStore.MergeKeyStore.SetKey | lib/key_stores/merge_key_store.d.ts:42-53 | only the store at `writeKeyStoreIndex` is written; every store that is not that object is unchanged; with no store at the index, the call fails and nothing is written |
| MergeStore.MergeKeyStore.GetKey | lib/key_stores/merge_key_store.d.ts:42-60 | it finds nothing exactly when no store holds the slot; otherwise it returns the entry of the first store, in array order, that holds it; no store changes |
| MergeStore.MergeKeyStore.RemoveKey | lib/key_stores/merge_key_store.d.ts:61-66 | the slot is removed from every store in the array, and each store loses nothing else |
| MergeStore.MergeKeyStore.Clear | lib/key_stores/merge_key_store.d.ts:67-70 | every store in the array ends up empty |
| MergeStore.MergeKeyStore.GetNetworks | lib/key_stores/merge_key_store.d.ts:71-75 | the union of the stores' networks, each once |
| MergeStore.MergeKeyStore.GetAccounts | lib/key_stores/merge_key_store.d.ts:76-80 | the union of the accounts the stores hold under the network, each once |
| AccessKeys.AccessKeyMatchesTransaction | lib/wallet-account.js:302-331 | the permission matcher, branch for branch as the code; its truth table is stated by `AccessKeys.MatchesIff`, `AccessKeys.FullAccessMatches`, `AccessKeys.MultisigMatches`, `AccessKeys.ScopedRejects`, `AccessKeys.OtherPermissionRejects` and `AccessKeys.VoteScenario` |
| AccessKeys.MatchesIff | lib/wallet-account.js:302-331 | a key matches exactly when it has full access, or is a multisig key of the signing account itself, or is scoped to this receiver with one deposit-free function call to an allowed method (any method when the list is empty) |
| AccessKeys.FullAccessMatches | lib/wallet-account.js:305-307 | a full-access key matches any receiver and any action list |
| AccessKeys.MultisigMatches | lib/wallet-account.js:314-316 | a function-call key that names the signer's own account and lists `add_request_and_confirm` matches unconditionally |
| AccessKeys.ScopedRejects | lib/wallet-account.js:317-329 | outside the multisig case, a function-call key rejects a different receiver and any action list whose length is not one |
| AccessKeys.OtherPermissionRejects | lib/wallet-account.js:328-329 | any other permission kind matches nothing |
| AccessKeys.VoteScenario | lib/wallet-account.js:317-324 | a key limited to `vote` authorizes a deposit-free `vote` call and not an `admin` call |
| AccessKeys.FindByPublicKey | lib/wallet-account.js:342 | `find` returns the first key with that public key, and nothing when there is none |
| AccessKeys.FirstWalletMatch | lib/wallet-account.js:347-353 | it returns the earliest key, in network order, that the wallet reported and that matches; nothing exactly when no key qualifies |
| AccessKeys.LocalMatch | lib/wallet-account.js:340-345 | the local-key step of the selection: the fetched entry for the local key when it matches; its properties are stated by `AccessKeys.SelectKeySound` and `AccessKeys.SelectKeyPrecedence` |
| AccessKeys.SelectKey | lib/wallet-account.js:338-354 | the result of `accessKeyForTransaction`, `WalletKeysUndefined` included; its properties are stated by `AccessKeys.SelectKeySound` and `AccessKeys.SelectKeyPrecedence`, and the loop `WalletAccount.ConnectedWalletAccount.AccessKeyForTransaction` is proved equal to it |
| AccessKeys.SelectKeySound | lib/wallet-account.js:338-354 | a selected key is one of the fetched keys, matches the call, and is the local key or a key the wallet reported |
| AccessKeys.SelectKeyPrecedence | lib/wallet-account.js:338-354 | the local key wins when its entry matches; otherwise the earliest matching wallet key wins, and nothing is returned exactly when there is none |
| AccessKeys.BuildTransaction | lib/wallet-account.js:280-281 | the transaction's nonce is above the access key's reported nonce |
| AccessKeys.PlanDispatch | lib/wallet-account.js:255-295 | how `signAndSendTransaction` ends: a local outcome, a thrown error, or a redirect with one transaction; its properties are stated by `AccessKeys.NoKeyFails`, `AccessKeys.LocalSubmitOnlyWhenSelected`, `AccessKeys.RetryOnlyOnAllowance` and `AccessKeys.RedirectTransactionWellFormed` |
| AccessKeys.NoKeyFails | lib/wallet-account.js:261-264 | with no selected key, the dispatch throws "Cannot find matching key" for the receiver |
| AccessKeys.LocalSubmitOnlyWhenSelected | lib/wallet-account.js:265-267 | unless the local key is the selected key, the local submission's outcome plays no part and the result is never a local outcome |
| AccessKeys.LocalSuccessReturned | lib/wallet-account.js:265-267 | when the local key is the selected key and the local submission succeeds, its outcome is the result |
| AccessKeys.OtherKeyRedirects | lib/wallet-account.js:265-286 | a selected key that is not the local key skips the local submission, and the transaction handed to the wallet is built from that selected key |
| AccessKeys.RetryOnlyOnAllowance | lib/wallet-account.js:268-274 | after a local rejection, only `NotEnoughAllowance` leads to a second selection without the local key, ending in a redirect or in `NullAccessKey` when it finds nothing; any other error is rethrown unchanged |
| AccessKeys.RedirectTransactionWellFormed | lib/wallet-account.js:276-286 | a transaction handed to the wallet has the signing account as sender, the public key of a fetched key that matches the call, that key's nonce plus one, the receiver and the actions |
| WalletAccount.AuthDataKey | lib/wallet-account.js:73 | the storage key is the raw prefix (the text `null` when the prefix is `null`) followed by `_wallet_auth_key`; `WalletAccount.WalletConnection.constructor` states that the connection uses it |
| WalletAccount.StoredAuthData | lib/wallet-account.js:74-79 | the stored session, or `{ allKeys: [] }` when nothing is stored; `WalletAccount.WalletConnection.constructor` states that the connection starts from it |
| WalletAccount.SignInUrl | lib/wallet-account.js:142-160 | the login URL; its parameters are stated by `WalletAccount.SignInUrlParams` and `WalletAccount.SignInQueryParams` |
| WalletAccount.SignInQueryParams | lib/wallet-account.js:143-159 | the login query holds each return URL once, holds `contract_id` and `public_key` once each exactly when the contract id is truthy, and holds all the method names in order |
| WalletAccount.SignInUrlParams | lib/wallet-account.js:142-159 | the login URL's success and failure URLs default to the current URL, with the same contract, key and method-name facts |
| WalletAccount.SignTransactionsUrl | lib/wallet-account.js:168-177 | the signing URL; its parameters are stated by `WalletAccount.SignTransactionsUrlParams` |
| WalletAccount.SignTransactionsUrlParams | lib/wallet-account.js:168-176 | the signing URL for one transaction carries exactly its serialization, the callback URL (the current URL by default), and `meta` only when `meta` is truthy |
| WalletAccount.SignTransactionsUrlSplits | lib/wallet-account.js:169-172 | for a non-empty list of transactions whose encodings hold no comma, the `transactions` parameter splits back into the encodings, one per transaction, in order |
| WalletAccount.StripResumeParams | lib/wallet-account.js:202-206 | the five `delete` calls of the resume; their effect is stated by `WalletAccount.StripRemovesResumeParams` |
| WalletAccount.StripRemovesResumeParams | lib/wallet-account.js:202-206 | the five resume parameters are gone, and every other parameter keeps its values |
| WalletAccount.PromoteKeys | lib/wallet-account.js:215-221 | the key move of the resume on the store's entries, failing with `NullKeyPair` when no pending key is stored; its properties are stated by `WalletAccount.PromoteMovesOneEntry` and `WalletAccount.PromoteOntoPendingSlotLosesKey` |
| WalletAccount.Resume | lib/wallet-account.js:184-209 | the whole resume step on the session state; its properties are stated by `WalletAccount.ResumeCleansUrl`, `WalletAccount.ResumeSignsIn`, `WalletAccount.ResumePromotes` and `WalletAccount.ResumeWithoutAccount`, and `WalletAccount.WalletConnection.CompleteSignInWithAccessKey` is proved equal to it |
| WalletAccount.PromoteMovesOneEntry | lib/wallet-account.js:215-221 | promotion puts the pending pair under the account, empties the pending slot, and leaves every other slot unchanged |
| WalletAccount.PromoteOntoPendingSlotLosesKey | lib/wallet-account.js:217-219 | if the account id is the pending slot's own name, the copy is removed with the pending slot |
| WalletAccount.ResumeCleansUrl | lib/wallet-account.js:202-207 | a completed resume keeps the URL's base and leaves none of the resume parameters |
| WalletAccount.ResumeSignsIn | lib/wallet-account.js:186-200 | a non-empty `account_id` signs the session in with the split `all_keys` and writes the same data to storage; a missing `all_keys` gives `[""]` |
| WalletAccount.ResumePromotes | lib/wallet-account.js:191-200 | with a `public_key` as well, the pending key is promoted; with no pending key, the resume fails after `{ accountId, allKeys }` is written to storage, so the stored session reads as signed in while `_authData`, the keys and the URL are unchanged |
| WalletAccount.ResumeWithoutAccount | lib/wallet-account.js:186-207 | without an account id, the session, the storage and the keys are unchanged |
| WalletAccount.WalletConnection.constructor | lib/wallet-account.js:72-84 | the storage key is built from the raw prefix; the session is the stored one or `{ allKeys: [] }`; when that session is not signed in, the resume runs to its end and its outcome is recorded |
| WalletAccount.WalletConnection.IsSignedIn | lib/wallet-account.js:93-95 | the session is signed in exactly when its account id is truthy; `WalletAccount.WalletConnection.GetAccountId`, `WalletAccount.WalletConnection.IsSignedInAsync` and `WalletAccount.WalletConnection.SignOut` state their results through it |
| WalletAccount.WalletConnection.GetAccountId | lib/wallet-account.js:123-125 | the result is non-empty exactly when the session is signed in, and it is then the session's account id |
| WalletAccount.WalletConnection.IsSignedInAsync | lib/wallet-account.js:106-114 | a failed resume rejects with its error; otherwise the result is whether the session is signed in |
| WalletAccount.WalletConnection.RequestSignIn | lib/wallet-account.js:140-162 | with a missing contract account it fails and changes nothing; otherwise it stores the fresh key under `pending_key` + public key (only when a contract is named) and navigates once to the login URL |
| WalletAccount.WalletConnection.RequestSignTransactions | lib/wallet-account.js:166-179 | it navigates once to the signing URL of the given transactions and changes nothing else |
| WalletAccount.WalletConnection.CompleteSignInWithAccessKey | lib/wallet-account.js:184-209 | its outcome and the new session, storage, keys and URL are those of the resume step on the old state |
| WalletAccount.WalletConnection.MoveKeyFromTempToPermanent | lib/wallet-account.js:215-221 | the store's entries become the promoted entries; with no pending key, the call fails with `NullKeyPair` and the store is unchanged |
| WalletAccount.WalletConnection.SignOut | lib/wallet-account.js:227-230 | afterwards the session is not signed in; its storage entry is removed and nothing else changes |
| WalletAccount.WalletConnection.Account | lib/wallet-account.js:234-239 | the first call creates the account for the current account id; later calls return that same object |
| WalletAccount.ConnectedWalletAccount.constructor | lib/wallet-account.js:246-249 | the account keeps its connection and its account id |
| WalletAccount.ConnectedWalletAccount.AccessKeyForTransaction | lib/wallet-account.js:338-355 | the loop's result is the specified selection: local key, then the earliest matching wallet key, then nothing; a session without `allKeys` fails once a key must be tested |
| WalletAccount.ConnectedWalletAccount.SignAndSendTransaction | lib/wallet-account.js:255-295 | the call ends as the dispatch plan says: a local outcome, a thrown error, or one navigation to the signing page for the planned transaction followed by "Failed to redirect" |

## Left out

- The `Proxy` guard for hosts without `window` (lib/wallet-account.js:54-71) is not modelled. The model always has a `Window`.
- Asynchrony is not modelled. Every `await` is a step in sequence. The resume started by the constructor runs to its end inside the constructor, rather than interleaving with later calls.
- The 1000 ms `setTimeout` is not modelled as time. The hand-off ends directly in `FailedToRedirect`.
- The network is not modelled. `getAccessKeys()`, the block fetch and the inherited local `signAndSendTransaction` are method parameters.
- Their failures are not modelled. A failed access-key fetch, a failed block fetch, or a local submission that neither succeeds nor reports an error type are not covered.
- The access-key list is fetched once per selection in the code. The model uses the same list for both selections.
- `PublicKey.from`, `baseDecode`, borsh serialization and base64 are not modelled. Parsing errors from `PublicKey.from` are not modelled either. The serializer is an opaque function parameter, and the block hash is given as bytes.
- `KeyPair.fromRandom` is not modelled. The fresh key is a parameter.
- The contract-account check (`account(...).state()`) is reduced to a boolean parameter.
- JSON encoding of `localStorage` is not modelled. The storage holds parsed session data, not strings.
- URL parsing, relative-URL resolution, percent-encoding and fragments are not modelled. A URL is a base plus an ordered query, `href` joins `name=value` pairs without encoding, and `new URL('sign', base)` is an opaque function of the window.
- The connection's key store is modelled as an `InMemoryKeyStore`. The browser local-storage store that the code normally uses is not part of this model.
- WalletAccount.WalletConnection.MoveKeyFromTempToPermanent, WalletAccount.PromoteKeys, WalletAccount.ResumePromotes: the model assumes that `setKey` with a null key pair (no pending key stored) throws before it writes anything, so the resume fails and the store is unchanged. The store declarations say nothing about a null pair. A store that stored it instead would empty the account's slot, and the sign-in would complete.
- MergeStore.MergeKeyStore: its component stores are `InMemoryKeyStore` objects, because the model has no interface type that other store classes could share. A component that is itself a merge store or a file-system store is not covered, and neither is a component call that fails, so the rule that one failing store aborts the whole read or write is not modelled.
- WalletAccount.AuthDataKey: the prefix is `string | null`, as declared. A caller that omits the argument passes `undefined`, which gives the key `undefined_wallet_auth_key`; that case is not represented.
- KeyStore.ToArray does not fix the order of the networks or accounts it returns, because the store declarations promise no order.
- InMemoryStore, MergeStore: `toString` is not modelled.
- lib/key_stores/unencrypted_file_system_keystore.d.ts is not part of this model, because it is file-system I/O.
- lib/contract.js, lib/stream.js, lib/browser-connect.js, lib/connect.d.ts, lib/account_creator.d.ts, lib/providers and lib/utils are not part of this model. They are wiring, network clients and encoding helpers outside this core.
- Concurrent dispatches that read the same nonce are not modelled. Every call runs alone.
- The rebinding of `appKeyPrefix` at lib/wallet-account.js:77 is not modelled, because nothing reads the rebound value afterwards.
