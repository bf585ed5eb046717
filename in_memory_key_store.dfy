/** `InMemoryKeyStore`: a key store whose private `keys` field maps each
    (network, account) slot to a key pair and is changed in place. */
module InMemoryStore {
  import opened Wrappers
  import opened KeyStore

  class InMemoryKeyStore {
    var keys: Entries

    constructor()
      ensures keys == map[]
    {
      keys := map[];
    }

    /** Stores `keyPair` under (networkId, accountId); every other slot keeps its entry. */
    method SetKey(networkId: string, accountId: string, keyPair: KeyPair)
      modifies this
      ensures keys == old(keys)[(networkId, accountId) := keyPair]
      ensures Lookup(keys, networkId, accountId) == Some(keyPair)
      ensures forall n, a :: (n, a) != (networkId, accountId) ==> Lookup(keys, n, a) == Lookup(old(keys), n, a)
    {
      keys := keys[(networkId, accountId) := keyPair];
    }

    /** The pair stored under (networkId, accountId), or nothing. */
    method GetKey(networkId: string, accountId: string) returns (r: Option<KeyPair>)
      ensures r == Lookup(keys, networkId, accountId)
    {
      if (networkId, accountId) in keys {
        r := Some(keys[(networkId, accountId)]);
      } else {
        r := None;
      }
    }

    /** Drops the entry of (networkId, accountId), if any; every other slot keeps its entry. */
    method RemoveKey(networkId: string, accountId: string)
      modifies this
      ensures keys == old(keys) - {(networkId, accountId)}
      ensures Lookup(keys, networkId, accountId) == None
      ensures forall n, a :: (n, a) != (networkId, accountId) ==> Lookup(keys, n, a) == Lookup(old(keys), n, a)
    {
      keys := keys - {(networkId, accountId)};
    }

    /** Drops every entry. */
    method Clear()
      modifies this
      ensures keys == map[]
      ensures NetworksOf(keys) == {}
    {
      keys := map[];
    }

    /** The networks with a stored key, each once. */
    method GetNetworks() returns (r: seq<string>)
      ensures Distinct(r)
      ensures forall n :: n in r <==> exists a :: (n, a) in keys
    {
      r := ToArray(NetworksOf(keys));
      forall n ensures n in NetworksOf(keys) <==> exists a :: (n, a) in keys {
        if exists a :: (n, a) in keys {
          var a :| (n, a) in keys;
          assert (n, a).0 == n;
        }
      }
    }

    /** The accounts with a key stored under `networkId`, each once. */
    method GetAccounts(networkId: string) returns (r: seq<string>)
      ensures Distinct(r)
      ensures forall a :: a in r <==> (networkId, a) in keys
    {
      r := ToArray(AccountsOf(keys, networkId));
      forall a ensures a in AccountsOf(keys, networkId) <==> (networkId, a) in keys {
        if (networkId, a) in keys {
          assert (networkId, a).1 == a;
        }
      }
    }
  }
}
