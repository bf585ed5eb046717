/** `MergeKeyStore`: an ordered array of key stores seen as one. Reads try the
    stores from first to last, `setKey` goes to the store at
    `writeKeyStoreIndex`, and `removeKey` and `clear` reach every store. */
module MergeStore {
  import opened Wrappers
  import opened KeyStore
  import opened InMemoryStore

  /** Why a write could not be made. */
  datatype KeyStoreError =
    /** `keyStores[writeKeyStoreIndex]` is `undefined`, so calling `setKey` on it throws */
    | NoStoreAtWriteIndex(index: nat)

  class MergeKeyStore {
    /** The component stores, in read order; the same store may appear more than once. */
    const keyStores: seq<InMemoryKeyStore>
    /** `options.writeKeyStoreIndex` */
    const writeKeyStoreIndex: nat

    /** `options` defaults to `{ writeKeyStoreIndex: 0 }`. */
    constructor(keyStores: seq<InMemoryKeyStore>, writeKeyStoreIndex: Option<nat>)
      ensures this.keyStores == keyStores
      ensures this.writeKeyStoreIndex == writeKeyStoreIndex.GetOr(0)
    {
      this.keyStores := keyStores;
      this.writeKeyStoreIndex := writeKeyStoreIndex.GetOr(0);
    }

    /** The store that receives `setKey`, when the index is inside the array. */
    function WriteTarget(): set<InMemoryKeyStore> {
      if writeKeyStoreIndex < |keyStores| then {keyStores[writeKeyStoreIndex]} else {}
    }

    /** Writes to the store at `writeKeyStoreIndex` only; fails, writing nothing,
        when there is no store at that index. */
    method SetKey(networkId: string, accountId: string, keyPair: KeyPair) returns (r: Outcome<KeyStoreError>)
      modifies WriteTarget()
      ensures r.Pass? <==> writeKeyStoreIndex < |keyStores|
      ensures r.Fail? ==> r.error == NoStoreAtWriteIndex(writeKeyStoreIndex)
      ensures forall i :: 0 <= i < |keyStores| ==>
        keyStores[i].keys ==
          if r.Pass? && keyStores[i] == keyStores[writeKeyStoreIndex]
          then old(keyStores[i].keys)[(networkId, accountId) := keyPair]
          else old(keyStores[i].keys)
    {
      if writeKeyStoreIndex < |keyStores| {
        keyStores[writeKeyStoreIndex].SetKey(networkId, accountId, keyPair);
        r := Pass;
      } else {
        r := Fail(NoStoreAtWriteIndex(writeKeyStoreIndex));
      }
    }

    /** The key of the first store, in array order, that holds one for the slot. */
    method GetKey(networkId: string, accountId: string) returns (r: Option<KeyPair>)
      ensures r.None? <==> forall i :: 0 <= i < |keyStores| ==> (networkId, accountId) !in keyStores[i].keys
      ensures r.Some? ==> exists i :: 0 <= i < |keyStores| && FirstHolder(i, networkId, accountId)
                                      && r.value == keyStores[i].keys[(networkId, accountId)]
    {
      var i := 0;
      while i < |keyStores|
        invariant 0 <= i <= |keyStores|
        invariant forall j :: 0 <= j < i ==> (networkId, accountId) !in keyStores[j].keys
      {
        var keyPair := keyStores[i].GetKey(networkId, accountId);
        if keyPair.Some? {
          assert FirstHolder(i, networkId, accountId);
          return keyPair;
        }
        i := i + 1;
      }
      return None;
    }

    /** Store `i` holds the slot and no store before it does. */
    ghost predicate FirstHolder(i: nat, networkId: string, accountId: string)
      reads keyStores
      requires i < |keyStores|
    {
      && (networkId, accountId) in keyStores[i].keys
      && forall j :: 0 <= j < i ==> (networkId, accountId) !in keyStores[j].keys
    }

    /** Removes the slot from every component store. */
    method RemoveKey(networkId: string, accountId: string)
      modifies keyStores
      ensures forall i :: 0 <= i < |keyStores| ==> keyStores[i].keys == old(keyStores[i].keys) - {(networkId, accountId)}
    {
      var i := 0;
      while i < |keyStores|
        invariant 0 <= i <= |keyStores|
        invariant forall j :: 0 <= j < |keyStores| ==>
          keyStores[j].keys == if keyStores[j] in keyStores[..i]
                               then old(keyStores[j].keys) - {(networkId, accountId)}
                               else old(keyStores[j].keys)
      {
        keyStores[i].RemoveKey(networkId, accountId);
        assert keyStores[..i + 1] == keyStores[..i] + [keyStores[i]];
        i := i + 1;
      }
      assert keyStores[..i] == keyStores;
    }

    /** Empties every component store. */
    method Clear()
      modifies keyStores
      ensures forall i :: 0 <= i < |keyStores| ==> keyStores[i].keys == map[]
    {
      var i := 0;
      while i < |keyStores|
        invariant 0 <= i <= |keyStores|
        invariant forall j :: 0 <= j < |keyStores| ==>
          keyStores[j].keys == if keyStores[j] in keyStores[..i] then map[] else old(keyStores[j].keys)
      {
        keyStores[i].Clear();
        assert keyStores[..i + 1] == keyStores[..i] + [keyStores[i]];
        i := i + 1;
      }
      assert keyStores[..i] == keyStores;
    }

    /** The networks of all component stores together, each once. */
    method GetNetworks() returns (r: seq<string>)
      ensures Distinct(r)
      ensures forall n :: n in r <==> exists i :: 0 <= i < |keyStores| && n in NetworksOf(keyStores[i].keys)
    {
      var result: set<string> := {};
      var i := 0;
      while i < |keyStores|
        invariant 0 <= i <= |keyStores|
        invariant forall n :: n in result <==> exists j :: 0 <= j < i && n in NetworksOf(keyStores[j].keys)
      {
        var networks := keyStores[i].GetNetworks();
        assert forall n :: n in networks <==> n in NetworksOf(keyStores[i].keys) by {
          forall n ensures n in networks <==> n in NetworksOf(keyStores[i].keys) {
            if n in NetworksOf(keyStores[i].keys) {
              var slot :| slot in keyStores[i].keys && slot.0 == n;
              assert (n, slot.1) in keyStores[i].keys;
            }
          }
        }
        result := result + set n | n in networks;
        i := i + 1;
      }
      r := ToArray(result);
    }

    /** The accounts under `networkId` of all component stores together, each once. */
    method GetAccounts(networkId: string) returns (r: seq<string>)
      ensures Distinct(r)
      ensures forall a :: a in r <==> exists i :: 0 <= i < |keyStores| && (networkId, a) in keyStores[i].keys
    {
      var result: set<string> := {};
      var i := 0;
      while i < |keyStores|
        invariant 0 <= i <= |keyStores|
        invariant forall a :: a in result <==> exists j :: 0 <= j < i && (networkId, a) in keyStores[j].keys
      {
        var accounts := keyStores[i].GetAccounts(networkId);
        result := result + set a | a in accounts;
        i := i + 1;
      }
      r := ToArray(result);
    }
  }
}
