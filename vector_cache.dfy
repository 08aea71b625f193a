/**
 * The Redis vector cache: vectors are stored under `"embedding:" + filename`
 * and the filename is read back from a key with `key.split(":")[1]`.
 * The float64 byte layout is taken to round-trip exactly, so the stored value
 * is the vector itself.
 */
module VectorCache {
  import opened Text
  import opened Vectors

  const KeyPrefix: string := "embedding:"

  /** The key namespace: the keys matched by the pattern `embedding:*`. */
  predicate IsCacheKey(key: string) {
    KeyPrefix <= key
  }

  /** `f"embedding:{filename}"`. */
  function EncodeKey(filename: string): (key: string)
    ensures IsCacheKey(key)
  {
    KeyPrefix + filename
  }

  /** The whole identity after the namespace prefix (what a lossless decoder would return). */
  function NameOf(key: string): (name: string)
    requires IsCacheKey(key)
  {
    key[|KeyPrefix|..]
  }

  /** Distinct filenames never share a key, so saving one never overwrites another. */
  lemma EncodeKeyInjective(f: string, g: string)
    ensures EncodeKey(f) == EncodeKey(g) <==> f == g
  {
    if EncodeKey(f) == EncodeKey(g) {
      assert f == EncodeKey(f)[|KeyPrefix|..];
    }
  }

  /** Every key of the namespace is the key of exactly the name after the prefix. */
  lemma EncodeNameOf(key: string)
    requires IsCacheKey(key)
    ensures EncodeKey(NameOf(key)) == key
  {
    assert key == key[..|KeyPrefix|] + key[|KeyPrefix|..];
  }

  /** The separator's first position in a cache key is the one that ends the prefix. */
  lemma FirstColonOfKey(key: string)
    requires IsCacheKey(key)
    ensures ':' in key && IndexOf(key, ':') == |KeyPrefix| - 1
  {
    assert key[|KeyPrefix| - 1] == ':';
    assert forall j :: 0 <= j < |KeyPrefix| - 1 ==> key[j] == KeyPrefix[j] != ':';
  }

  /**
   * `key.decode("utf-8").split(":")[1]`: the part of the identity after the
   * prefix up to its own first `':'` (or its end).
   */
  function DecodeKey(key: string): (name: string)
    requires IsCacheKey(key)
    ensures ':' !in name
    ensures name <= NameOf(key)
    ensures |name| < |NameOf(key)| ==> NameOf(key)[|name|] == ':'
  {
    FirstColonOfKey(key);
    var parts := Split(key, ':');
    assert parts[1..] == Split(NameOf(key), ':');
    var rest := NameOf(key);
    assert parts[1] in parts;
    assert ':' in rest ==> parts[1] == rest[..IndexOf(rest, ':')];
    parts[1]
  }

  /** Decoding after encoding gives back the filename exactly when it has no `':'`. */
  lemma DecodeEncode(filename: string)
    ensures DecodeKey(EncodeKey(filename)) == filename <==> ':' !in filename
  {
    var key := EncodeKey(filename);
    assert NameOf(key) == filename;
  }

  /** A filename containing `':'` is read back as its text before the first `':'`. */
  lemma DecodeEncodeTruncates(filename: string)
    requires ':' in filename
    ensures DecodeKey(EncodeKey(filename)) == filename[..IndexOf(filename, ':')]
  {
    var key := EncodeKey(filename);
    assert NameOf(key) == filename;
    var d := DecodeKey(key);
    assert d == filename[..|d|];
  }

  /** The cache after `r.set(EncodeKey(filename), vector)`. */
  function Put(data: map<string, Vector>, filename: string, v: Vector): (r: map<string, Vector>)
    ensures EncodeKey(filename) in r && r[EncodeKey(filename)] == v
    ensures forall k :: k != EncodeKey(filename) ==> (k in r <==> k in data)
    ensures forall k :: k != EncodeKey(filename) && k in data ==> r[k] == data[k]
  {
    data[EncodeKey(filename) := v]
  }

  /** Last write wins: saving a filename again replaces its entry. */
  lemma PutOverwrites(data: map<string, Vector>, filename: string, v: Vector, w: Vector)
    ensures Put(Put(data, filename, v), filename, w) == Put(data, filename, w)
  {
  }

  /** The Redis server: a key-value map the cache operations read and write. */
  class VectorStore {
    var data: map<string, Vector>

    constructor (initial: map<string, Vector>)
      ensures data == initial
    {
      data := initial;
    }

    /** `r.set(key, value)`. */
    method Set(key: string, value: Vector)
      modifies this
      ensures data == old(data)[key := value]
    {
      data := data[key := value];
    }

    /** `r.get(key)` for a key known to be present. */
    method Get(key: string) returns (value: Vector)
      requires key in data
      ensures value == data[key]
    {
      value := data[key];
    }

    /** `r.keys(prefix + "*")`: every matching key once, in an order Redis does not specify. */
    method KeysWithPrefix(prefix: string) returns (keys: seq<string>)
      ensures forall k :: k in keys <==> k in data && prefix <= k
      ensures forall i, j :: 0 <= i < j < |keys| ==> keys[i] != keys[j]
    {
      var pending := set k | k in data && prefix <= k;
      keys := [];
      while pending != {}
        invariant pending <= data.Keys
        invariant forall k :: k in keys <==> k in data && prefix <= k && k !in pending
        invariant forall k :: k in pending ==> prefix <= k
        invariant forall i, j :: 0 <= i < j < |keys| ==> keys[i] != keys[j]
        decreases pending
      {
        var k :| k in pending;
        keys := keys + [k];
        pending := pending - {k};
      }
    }
  }
}
