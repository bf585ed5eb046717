/** Access keys as the network reports them, the rule that decides whether one
    of them may authorize a list of actions sent to a receiver, the order in
    which candidate keys are tried, the transaction built for the wallet, and
    the path a dispatch takes through local submission, retry and hand-off. */
module AccessKeys {
  import opened Wrappers

  /** The method name whose presence marks a key of a multisig-controlled wallet. */
  const MULTISIG_HAS_METHOD: string := "add_request_and_confirm"

  /** The server error type that triggers the retry without the local key. */
  const NOT_ENOUGH_ALLOWANCE: string := "NotEnoughAllowance"

  datatype Permission =
    | FullAccess
    | FunctionCallPermission(receiverId: string, methodNames: seq<string>, allowance: Option<nat>)
    /** any permission kind other than the two the matcher knows */
    | OtherPermission(kind: string)

  datatype AccessKey = AccessKey(nonce: nat, permission: Permission)

  /** One item of the account's access-key list: `{ public_key, access_key }`. */
  datatype AccessKeyInfo = AccessKeyInfo(publicKey: string, accessKey: AccessKey)

  datatype Action =
    /** `{ functionCall: { methodName, deposit } }`; an absent deposit is `None` */
    | FunctionCall(methodName: string, deposit: Option<nat>)
    /** any action that is not a function call (transfer, stake, ...) */
    | OtherAction(kind: string)

  /** The unsigned transaction handed to the wallet. `signerId` is `None` when
      the account object was created before any account was signed in. */
  datatype Transaction = Transaction(
    signerId: Option<string>,
    publicKey: string,
    receiverId: string,
    nonce: nat,
    actions: seq<Action>,
    blockHash: seq<bv8>)

  /** The errors a dispatch or a session step can end with. */
  datatype WalletError =
    /** no access key can authorize the call: "Cannot find matching key for transaction sent to <receiverId>" */
    | CannotFindMatchingKey(receiverId: string)
    /** a local submission failed for a reason other than exhausted allowance; rethrown unchanged */
    | Rethrown(errorType: string)
    /** the second selection found nothing and the selected key is read through `null` */
    | NullAccessKey
    /** the session's `allKeys` is `undefined` (after sign-out) and is searched with `indexOf` */
    | WalletKeysUndefined
    /** the redirect to the wallet did not navigate away: "Failed to redirect to sign transaction" */
    | FailedToRedirect
    /** the contract account named at sign-in does not exist */
    | ContractAccountMissing(contractId: string)
    /** the pending key slot was empty, so `null` is handed to the store as a key pair */
    | NullKeyPair

  /** A deposit that is absent or zero. */
  predicate NoDeposit(deposit: Option<nat>) {
    deposit.None? || deposit.value == 0
  }

  /** `accessKeyMatchesTransaction`: may `key` authorize `actions` sent to
      `receiverId`, when the signing account is `signerId`? */
  predicate AccessKeyMatchesTransaction(signerId: Option<string>, key: AccessKeyInfo, receiverId: string, actions: seq<Action>) {
    match key.accessKey.permission
    case FullAccess => true
    case FunctionCallPermission(allowedReceiverId, allowedMethods, _) =>
      if Some(allowedReceiverId) == signerId && MULTISIG_HAS_METHOD in allowedMethods then true
      else if allowedReceiverId == receiverId then
        && |actions| == 1
        && actions[0].FunctionCall?
        && NoDeposit(actions[0].deposit)
        && (|allowedMethods| == 0 || actions[0].methodName in allowedMethods)
      else false
    case OtherPermission(_) => false
  }

  /** The multisig carve-out: a function-call key scoped to the signing account
      itself that lists the multisig confirmation method. */
  ghost predicate MultisigKey(signerId: Option<string>, p: Permission) {
    p.FunctionCallPermission? && Some(p.receiverId) == signerId && MULTISIG_HAS_METHOD in p.methodNames
  }

  /** The one call shape a scoped key authorizes: a single function call with no
      deposit whose method is allowed. */
  ghost predicate ScopedCall(allowedMethods: seq<string>, actions: seq<Action>) {
    exists methodName, deposit :: actions == [FunctionCall(methodName, deposit)]
      && NoDeposit(deposit)
      && (allowedMethods == [] || methodName in allowedMethods)
  }

  /** The whole decision table: full access, the multisig carve-out, or a key
      scoped to this receiver and a single deposit-free allowed call. */
  lemma {:induction false} MatchesIff(signerId: Option<string>, key: AccessKeyInfo, receiverId: string, actions: seq<Action>)
    ensures AccessKeyMatchesTransaction(signerId, key, receiverId, actions) <==>
      || key.accessKey.permission.FullAccess?
      || MultisigKey(signerId, key.accessKey.permission)
      || (&& key.accessKey.permission.FunctionCallPermission?
          && key.accessKey.permission.receiverId == receiverId
          && ScopedCall(key.accessKey.permission.methodNames, actions))
  {
    var p := key.accessKey.permission;
    if p.FunctionCallPermission? && !MultisigKey(signerId, p) && p.receiverId == receiverId {
      if ScopedCall(p.methodNames, actions) {
        var m, d :| actions == [FunctionCall(m, d)] && NoDeposit(d) && (p.methodNames == [] || m in p.methodNames);
        assert actions[0] == FunctionCall(m, d);
      }
      if AccessKeyMatchesTransaction(signerId, key, receiverId, actions) {
        assert actions == [FunctionCall(actions[0].methodName, actions[0].deposit)];
      }
    }
  }

  /** A full-access key authorizes anything. */
  lemma FullAccessMatches(signerId: Option<string>, key: AccessKeyInfo, receiverId: string, actions: seq<Action>)
    requires key.accessKey.permission.FullAccess?
    ensures AccessKeyMatchesTransaction(signerId, key, receiverId, actions)
  {
  }

  /** A multisig key authorizes anything, whatever the receiver and actions. */
  lemma MultisigMatches(signerId: Option<string>, key: AccessKeyInfo, receiverId: string, actions: seq<Action>)
    requires MultisigKey(signerId, key.accessKey.permission)
    ensures AccessKeyMatchesTransaction(signerId, key, receiverId, actions)
  {
  }

  /** Outside the carve-out a function-call key rejects every action list whose
      length is not one, and every receiver other than its own. */
  lemma ScopedRejects(signerId: Option<string>, key: AccessKeyInfo, receiverId: string, actions: seq<Action>)
    requires key.accessKey.permission.FunctionCallPermission?
    requires !MultisigKey(signerId, key.accessKey.permission)
    requires |actions| != 1 || key.accessKey.permission.receiverId != receiverId
    ensures !AccessKeyMatchesTransaction(signerId, key, receiverId, actions)
  {
  }

  /** A permission kind other than the two known ones authorizes nothing. */
  lemma OtherPermissionRejects(signerId: Option<string>, key: AccessKeyInfo, receiverId: string, actions: seq<Action>)
    requires key.accessKey.permission.OtherPermission?
    ensures !AccessKeyMatchesTransaction(signerId, key, receiverId, actions)
  {
  }

  /** A key scoped to a receiver with method list `["vote"]` authorizes a
      deposit-free call of `vote` on that receiver and not one of `admin`. */
  lemma VoteScenario()
    ensures var key := AccessKeyInfo("ed25519:alice", AccessKey(7, FunctionCallPermission("app.test", ["vote"], Some(1000))));
      && AccessKeyMatchesTransaction(Some("alice.test"), key, "app.test", [FunctionCall("vote", Some(0))])
      && !AccessKeyMatchesTransaction(Some("alice.test"), key, "app.test", [FunctionCall("admin", Some(0))])
  {
  }

  // ---------------------------------------------------------------------------
  // Candidate selection

  /** `accessKeys.find(key => key.public_key === publicKey)` */
  function FindByPublicKey(keys: seq<AccessKeyInfo>, publicKey: string): (r: Option<AccessKeyInfo>)
    ensures r.None? <==> forall i :: 0 <= i < |keys| ==> keys[i].publicKey != publicKey
    ensures r.Some? ==> exists i :: 0 <= i < |keys| && keys[i] == r.value && r.value.publicKey == publicKey
                                    && forall j :: 0 <= j < i ==> keys[j].publicKey != publicKey
    decreases |keys|
  {
    if keys == [] then None
    else if keys[0].publicKey == publicKey then Some(keys[0])
    else
      var r := FindByPublicKey(keys[1..], publicKey);
      assert r.Some? ==> exists i :: 0 <= i < |keys| && keys[i] == r.value && r.value.publicKey == publicKey
                                     && forall j :: 0 <= j < i ==> keys[j].publicKey != publicKey by {
        if r.Some? {
          var i :| 0 <= i < |keys[1..]| && keys[1..][i] == r.value && r.value.publicKey == publicKey
                   && forall j :: 0 <= j < i ==> keys[1..][j].publicKey != publicKey;
          assert keys[i + 1] == r.value;
          assert forall j :: 0 <= j < i + 1 ==> keys[j].publicKey != publicKey by {
            forall j | 0 <= j < i + 1 ensures keys[j].publicKey != publicKey {
              if j > 0 { assert keys[j] == keys[1..][j - 1]; }
            }
          }
        }
      }
      r
  }

  /** A key the wallet reported for the session that authorizes the call. */
  predicate WalletCandidate(signerId: Option<string>, walletKeys: seq<string>, key: AccessKeyInfo, receiverId: string, actions: seq<Action>) {
    key.publicKey in walletKeys && AccessKeyMatchesTransaction(signerId, key, receiverId, actions)
  }

  /** The first key, in the network's order, that is a wallet candidate. */
  function FirstWalletMatch(signerId: Option<string>, walletKeys: seq<string>, keys: seq<AccessKeyInfo>, receiverId: string, actions: seq<Action>): (r: Option<AccessKeyInfo>)
    ensures r.None? <==> forall i :: 0 <= i < |keys| ==> !WalletCandidate(signerId, walletKeys, keys[i], receiverId, actions)
    ensures r.Some? ==> exists i :: 0 <= i < |keys| && keys[i] == r.value
                                    && WalletCandidate(signerId, walletKeys, keys[i], receiverId, actions)
                                    && forall j :: 0 <= j < i ==> !WalletCandidate(signerId, walletKeys, keys[j], receiverId, actions)
    decreases |keys|
  {
    if keys == [] then None
    else if WalletCandidate(signerId, walletKeys, keys[0], receiverId, actions) then Some(keys[0])
    else
      var r := FirstWalletMatch(signerId, walletKeys, keys[1..], receiverId, actions);
      assert r.Some? ==> exists i :: 0 <= i < |keys| && keys[i] == r.value
                                     && WalletCandidate(signerId, walletKeys, keys[i], receiverId, actions)
                                     && forall j :: 0 <= j < i ==> !WalletCandidate(signerId, walletKeys, keys[j], receiverId, actions) by {
        if r.Some? {
          var i :| 0 <= i < |keys[1..]| && keys[1..][i] == r.value
                   && WalletCandidate(signerId, walletKeys, keys[1..][i], receiverId, actions)
                   && forall j :: 0 <= j < i ==> !WalletCandidate(signerId, walletKeys, keys[1..][j], receiverId, actions);
          assert keys[i + 1] == r.value;
          forall j | 0 <= j < i + 1 ensures !WalletCandidate(signerId, walletKeys, keys[j], receiverId, actions) {
            if j > 0 { assert keys[j] == keys[1..][j - 1]; }
          }
        }
      }
      assert r.None? ==> forall i :: 0 <= i < |keys| ==> !WalletCandidate(signerId, walletKeys, keys[i], receiverId, actions) by {
        if r.None? {
          forall i | 0 <= i < |keys| ensures !WalletCandidate(signerId, walletKeys, keys[i], receiverId, actions) {
            if i > 0 { assert keys[i] == keys[1..][i - 1]; }
          }
        }
      }
      r
  }

  /** The local key's entry in the network's list, when it authorizes the call. */
  function LocalMatch(signerId: Option<string>, keys: seq<AccessKeyInfo>, receiverId: string, actions: seq<Action>, localKey: Option<string>): Option<AccessKeyInfo> {
    if localKey.None? then None
    else
      match FindByPublicKey(keys, localKey.value)
      case Some(k) => if AccessKeyMatchesTransaction(signerId, k, receiverId, actions) then Some(k) else None
      case None => None
  }

  /** `accessKeyForTransaction`: the local key if it authorizes the call, else
      the first wallet candidate, else nothing; with the session's key list
      `undefined`, searching it fails as soon as there is a key to test. */
  function SelectKey(signerId: Option<string>, walletKeys: Option<seq<string>>, keys: seq<AccessKeyInfo>,
                     receiverId: string, actions: seq<Action>, localKey: Option<string>): Result<Option<AccessKeyInfo>, WalletError>
  {
    var local := LocalMatch(signerId, keys, receiverId, actions, localKey);
    if local.Some? then Ok(local)
    else if walletKeys.None? then (if keys == [] then Ok(None) else Err(WalletKeysUndefined))
    else Ok(FirstWalletMatch(signerId, walletKeys.value, keys, receiverId, actions))
  }

  /** Every selected key is one of the fetched keys, authorizes the call, and is
      either the local key or one the wallet reported. */
  lemma {:induction false} SelectKeySound(signerId: Option<string>, walletKeys: Option<seq<string>>, keys: seq<AccessKeyInfo>,
                                          receiverId: string, actions: seq<Action>, localKey: Option<string>, k: AccessKeyInfo)
    requires SelectKey(signerId, walletKeys, keys, receiverId, actions, localKey) == Ok(Some(k))
    ensures k in keys
    ensures AccessKeyMatchesTransaction(signerId, k, receiverId, actions)
    ensures Some(k.publicKey) == localKey || (walletKeys.Some? && k.publicKey in walletKeys.value)
  {
    if LocalMatch(signerId, keys, receiverId, actions, localKey).None? {
      var i :| 0 <= i < |keys| && keys[i] == k && WalletCandidate(signerId, walletKeys.value, keys[i], receiverId, actions);
    } else {
      var i :| 0 <= i < |keys| && keys[i] == k && k.publicKey == localKey.value;
    }
  }

  /** The precedence: the local key wins whenever its entry authorizes the
      call; otherwise the result is the earliest wallet candidate in network
      order, and nothing exactly when there is none. */
  lemma {:induction false} SelectKeyPrecedence(signerId: Option<string>, walletKeys: seq<string>, keys: seq<AccessKeyInfo>,
                                               receiverId: string, actions: seq<Action>, localKey: Option<string>)
    ensures var r := SelectKey(signerId, Some(walletKeys), keys, receiverId, actions, localKey);
      && r.Ok?
      && (localKey.Some? && FindByPublicKey(keys, localKey.value).Some?
          && AccessKeyMatchesTransaction(signerId, FindByPublicKey(keys, localKey.value).value, receiverId, actions)
          ==> r.value == FindByPublicKey(keys, localKey.value))
      && (LocalMatch(signerId, keys, receiverId, actions, localKey).None? ==>
          && (r.value.None? <==> forall i :: 0 <= i < |keys| ==> !WalletCandidate(signerId, walletKeys, keys[i], receiverId, actions))
          && (r.value.Some? ==> exists i :: 0 <= i < |keys| && keys[i] == r.value.value
                                  && WalletCandidate(signerId, walletKeys, keys[i], receiverId, actions)
                                  && forall j :: 0 <= j < i ==> !WalletCandidate(signerId, walletKeys, keys[j], receiverId, actions)))
  {
  }

  // ---------------------------------------------------------------------------
  // Dispatch

  /** What the inherited local `signAndSendTransaction` would do with the local key. */
  datatype SubmitOutcome =
    /** the transaction went through; `outcome` stands for the final execution outcome */
    | Submitted(outcome: string)
    /** it was rejected with a server error of type `errorType` ("" when untyped) */
    | Rejected(errorType: string)

  /** Where a dispatch ends: the local submission's outcome, an error, or the
      hand-off of one transaction to the wallet. */
  datatype DispatchPlan =
    | LocalOutcome(outcome: string)
    | Throw(error: WalletError)
    | Redirect(transaction: Transaction)

  /** `createTransaction` for the selected key: its nonce is the key's reported nonce plus one. */
  function BuildTransaction(signerId: Option<string>, key: AccessKeyInfo, receiverId: string, actions: seq<Action>, blockHash: seq<bv8>): (tx: Transaction)
    ensures tx.nonce > key.accessKey.nonce
  {
    Transaction(signerId, key.publicKey, receiverId, key.accessKey.nonce + 1, actions, blockHash)
  }

  /** Is the key picked with the local hint the local key itself? Only then is
      the transaction submitted locally. */
  predicate SubmitsLocally(signerId: Option<string>, walletKeys: Option<seq<string>>, keys: seq<AccessKeyInfo>,
                           receiverId: string, actions: seq<Action>, localKey: Option<string>) {
    var first := SelectKey(signerId, walletKeys, keys, receiverId, actions, localKey);
    first.Ok? && first.value.Some? && localKey == Some(first.value.value.publicKey)
  }

  /** The path `signAndSendTransaction` takes. */
  function PlanDispatch(signerId: Option<string>, walletKeys: Option<seq<string>>, keys: seq<AccessKeyInfo>,
                        receiverId: string, actions: seq<Action>, localKey: Option<string>,
                        localSubmit: SubmitOutcome, blockHash: seq<bv8>): DispatchPlan
  {
    match SelectKey(signerId, walletKeys, keys, receiverId, actions, localKey)
    case Err(e) => Throw(e)
    case Ok(None) => Throw(CannotFindMatchingKey(receiverId))
    case Ok(Some(key)) =>
      if localKey == Some(key.publicKey) then
        match localSubmit
        case Submitted(outcome) => LocalOutcome(outcome)
        case Rejected(errorType) =>
          if errorType == NOT_ENOUGH_ALLOWANCE then
            match SelectKey(signerId, walletKeys, keys, receiverId, actions, None)
            case Err(e) => Throw(e)
            case Ok(None) => Throw(NullAccessKey)
            case Ok(Some(retried)) => Redirect(BuildTransaction(signerId, retried, receiverId, actions, blockHash))
          else Throw(Rethrown(errorType))
      else Redirect(BuildTransaction(signerId, key, receiverId, actions, blockHash))
  }

  /** Without any authorizing key the dispatch fails naming the receiver. */
  lemma NoKeyFails(signerId: Option<string>, walletKeys: Option<seq<string>>, keys: seq<AccessKeyInfo>,
                   receiverId: string, actions: seq<Action>, localKey: Option<string>,
                   localSubmit: SubmitOutcome, blockHash: seq<bv8>)
    requires SelectKey(signerId, walletKeys, keys, receiverId, actions, localKey) == Ok(None)
    ensures PlanDispatch(signerId, walletKeys, keys, receiverId, actions, localKey, localSubmit, blockHash)
            == Throw(CannotFindMatchingKey(receiverId))
  {
  }

  /** The local submission's outcome matters only when the local key was
      selected: otherwise nothing is submitted locally. */
  lemma LocalSubmitOnlyWhenSelected(signerId: Option<string>, walletKeys: Option<seq<string>>, keys: seq<AccessKeyInfo>,
                                    receiverId: string, actions: seq<Action>, localKey: Option<string>,
                                    s1: SubmitOutcome, s2: SubmitOutcome, blockHash: seq<bv8>)
    requires !SubmitsLocally(signerId, walletKeys, keys, receiverId, actions, localKey)
    ensures PlanDispatch(signerId, walletKeys, keys, receiverId, actions, localKey, s1, blockHash)
            == PlanDispatch(signerId, walletKeys, keys, receiverId, actions, localKey, s2, blockHash)
    ensures !PlanDispatch(signerId, walletKeys, keys, receiverId, actions, localKey, s1, blockHash).LocalOutcome?
  {
  }

  /** When the local key is selected, a successful local submission is the result. */
  lemma LocalSuccessReturned(signerId: Option<string>, walletKeys: Option<seq<string>>, keys: seq<AccessKeyInfo>,
                             receiverId: string, actions: seq<Action>, localKey: Option<string>,
                             outcome: string, blockHash: seq<bv8>)
    requires SubmitsLocally(signerId, walletKeys, keys, receiverId, actions, localKey)
    ensures PlanDispatch(signerId, walletKeys, keys, receiverId, actions, localKey, Submitted(outcome), blockHash)
            == LocalOutcome(outcome)
  {
  }

  /** A selected key that is not the local key goes to the wallet: the
      transaction handed over is built from that very key. */
  lemma OtherKeyRedirects(signerId: Option<string>, walletKeys: Option<seq<string>>, keys: seq<AccessKeyInfo>,
                          receiverId: string, actions: seq<Action>, localKey: Option<string>,
                          localSubmit: SubmitOutcome, blockHash: seq<bv8>, key: AccessKeyInfo)
    requires SelectKey(signerId, walletKeys, keys, receiverId, actions, localKey) == Ok(Some(key))
    requires localKey != Some(key.publicKey)
    ensures PlanDispatch(signerId, walletKeys, keys, receiverId, actions, localKey, localSubmit, blockHash)
            == Redirect(BuildTransaction(signerId, key, receiverId, actions, blockHash))
  {
  }

  /** After a local rejection, only exhausted allowance leads to the second
      selection (without the local key); every other error is rethrown as is. */
  lemma RetryOnlyOnAllowance(signerId: Option<string>, walletKeys: Option<seq<string>>, keys: seq<AccessKeyInfo>,
                             receiverId: string, actions: seq<Action>, localKey: Option<string>,
                             errorType: string, blockHash: seq<bv8>)
    requires SubmitsLocally(signerId, walletKeys, keys, receiverId, actions, localKey)
    ensures var plan := PlanDispatch(signerId, walletKeys, keys, receiverId, actions, localKey, Rejected(errorType), blockHash);
      if errorType == NOT_ENOUGH_ALLOWANCE then
        match SelectKey(signerId, walletKeys, keys, receiverId, actions, None)
        case Err(e) => plan == Throw(e)
        case Ok(None) => plan == Throw(NullAccessKey)
        case Ok(Some(k)) => plan == Redirect(BuildTransaction(signerId, k, receiverId, actions, blockHash))
      else plan == Throw(Rethrown(errorType))
  {
  }

  /** Every transaction handed to the wallet comes from the signing account,
      carries the public key of a fetched key that authorizes the call, that
      key's nonce plus one, the receiver and the actions. */
  lemma {:induction false} RedirectTransactionWellFormed(signerId: Option<string>, walletKeys: Option<seq<string>>, keys: seq<AccessKeyInfo>,
                                                         receiverId: string, actions: seq<Action>, localKey: Option<string>,
                                                         localSubmit: SubmitOutcome, blockHash: seq<bv8>)
    requires PlanDispatch(signerId, walletKeys, keys, receiverId, actions, localKey, localSubmit, blockHash).Redirect?
    ensures var tx := PlanDispatch(signerId, walletKeys, keys, receiverId, actions, localKey, localSubmit, blockHash).transaction;
      exists k :: k in keys && AccessKeyMatchesTransaction(signerId, k, receiverId, actions)
        && tx == Transaction(signerId, k.publicKey, receiverId, k.accessKey.nonce + 1, actions, blockHash)
  {
    var first := SelectKey(signerId, walletKeys, keys, receiverId, actions, localKey);
    var key := first.value.value;
    if localKey == Some(key.publicKey) {
      var retried := SelectKey(signerId, walletKeys, keys, receiverId, actions, None).value.value;
      SelectKeySound(signerId, walletKeys, keys, receiverId, actions, None, retried);
    } else {
      SelectKeySound(signerId, walletKeys, keys, receiverId, actions, localKey, key);
    }
  }
}
