/**
 * The key/value store the cache writes to (hoverfly's `cache.Cache`, here its
 * in-memory implementation `cache.NewInMemoryCache`). Keys and values are
 * opaque byte strings; concurrency control belongs to the real store and is
 * not modelled.
 */
module ByteStore {
  import opened Wrappers

  newtype Byte = x: int | 0 <= x < 256

  type Bytes = seq<Byte>

  datatype StoreError = KeyNotFound

  /** `[]byte(s)` for a string of ASCII characters (each character is one byte). */
  function AsciiBytes(s: string): (bs: Bytes)
    ensures |bs| == |s|
  {
    seq(|s|, i requires 0 <= i < |s| => (s[i] as int % 256) as Byte)
  }

  class InMemoryCache {
    var elements: map<Bytes, Bytes>

    constructor ()
      ensures elements == map[]
    {
      elements := map[];
    }

    /** Writes `value` under `key`, overwriting what was there. */
    method Set(key: Bytes, value: Bytes)
      modifies this
      ensures elements == old(elements)[key := value]
    {
      elements := elements[key := value];
    }

    /** Reads the value under `key`; a missing key is an error, not an empty value. */
    method Get(key: Bytes) returns (r: Result<Bytes, StoreError>)
      ensures r.Success? <==> key in elements
      ensures r.Success? ==> r.value == elements[key]
      ensures r.Failure? ==> r.error == KeyNotFound
    {
      if key in elements {
        r := Success(elements[key]);
      } else {
        r := Failure(KeyNotFound);
      }
    }

    method GetAllKeys() returns (keys: set<Bytes>)
      ensures keys == elements.Keys
    {
      keys := elements.Keys;
    }

    /** Removes every entry. */
    method DeleteData()
      modifies this
      ensures elements == map[]
    {
      elements := map[];
    }
  }
}
