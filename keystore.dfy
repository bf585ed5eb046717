/** The value layer shared by every key store: key pairs, the entries a store
    holds under (network, account) slots, and what `getKey`, `getNetworks` and
    `getAccounts` are meant to report about them. */
module KeyStore {
  import opened Wrappers

  /** Opaque key material; only its public key's string form is ever inspected. */
  datatype KeyPair = KeyPair(publicKey: string, secretKey: string)

  /** A store's entries: (networkId, accountId) to key pair. */
  type Entries = map<(string, string), KeyPair>

  /** What `getKey(networkId, accountId)` reports: the stored pair, or nothing. */
  function Lookup(m: Entries, networkId: string, accountId: string): Option<KeyPair> {
    if (networkId, accountId) in m then Some(m[(networkId, accountId)]) else None
  }

  /** The networks with at least one stored account. */
  function NetworksOf(m: Entries): set<string> {
    set slot | slot in m :: slot.0
  }

  /** The accounts stored under `networkId`. */
  function AccountsOf(m: Entries, networkId: string): set<string> {
    set slot | slot in m && slot.0 == networkId :: slot.1
  }

  predicate Distinct(s: seq<string>) {
    forall i, j :: 0 <= i < j < |s| ==> s[i] != s[j]
  }

  /** `Array.from(set)`: the members of a set, each once. */
  method ToArray(s: set<string>) returns (r: seq<string>)
    ensures Distinct(r)
    ensures forall x :: x in r <==> x in s
  {
    r := [];
    var rest := s;
    while rest != {}
      invariant Distinct(r)
      invariant forall x :: x in s <==> x in r || x in rest
      invariant forall x :: x in r ==> x !in rest
      decreases rest
    {
      var x :| x in rest;
      r := r + [x];
      rest := rest - {x};
    }
  }
}
