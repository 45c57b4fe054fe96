/** The etcd-backed metadata store as an atomic key/value map (gaia_server/storage/etcd.py). */
module MetadataStores {
  import opened Wrappers

  newtype Byte = x: int | 0 <= x < 256
  type Bytes = seq<Byte>
  type Data = map<string, Bytes>

  function LStrip(s: string): string {
    if s != "" && s[0] == '/' then LStrip(s[1..]) else s
  }

  /** Where a key lives in etcd. */
  function FullKey(ns: string, key: string): string {
    "/" + ns + "/" + LStrip(key)
  }

  /** Leading slashes of a key do not count; the rest follows the namespace. */
  lemma {:induction false} FullKeyMeaning(ns: string, key: string) returns (k: nat)
    ensures k <= |key| && (forall i | 0 <= i < k :: key[i] == '/') && (k < |key| ==> key[k] != '/')
    ensures FullKey(ns, key) == "/" + ns + "/" + key[k..]
    decreases |key|
  {
    if key != "" && key[0] == '/' {
      var j := FullKeyMeaning(ns, key[1..]);
      k := j + 1;
      assert key[1..][j..] == key[k..];
    } else {
      k := 0;
    }
  }

  function Fetch(data: Data, key: string): Option<Bytes> {
    if key in data then Some(data[key]) else None
  }

  /** The compare of an etcd transaction: a missing key matches no value, not even the empty one. */
  predicate Matches(data: Data, key: string, expected: Bytes) {
    key in data && data[key] == expected
  }

  class EtcdMetadataStore {
    const ns: string
    var data: Data

    constructor (ns: string)
      ensures this.ns == ns && data == map[]
    {
      this.ns := ns;
      data := map[];
    }

    method Get(key: string) returns (value: Option<Bytes>)
      ensures value == if FullKey(ns, key) in data then Some(data[FullKey(ns, key)]) else None
    {
      var k := FullKey(ns, key);
      value := if k in data then Some(data[k]) else None;
    }

    method Put(key: string, value: Bytes)
      modifies this
      ensures data == old(data)[FullKey(ns, key) := value]
    {
      data := data[FullKey(ns, key) := value];
    }

    /** One transaction: the comparison and the write cannot be separated. */
    method CompareAndSwap(key: string, expected: Bytes, value: Bytes) returns (swapped: bool)
      modifies this
      ensures swapped <==> FullKey(ns, key) in old(data) && old(data)[FullKey(ns, key)] == expected
      ensures data == if swapped then old(data)[FullKey(ns, key) := value] else old(data)
    {
      var k := FullKey(ns, key);
      swapped := k in data && data[k] == expected;
      if swapped {
        data := data[k := value];
      }
    }
  }
}
