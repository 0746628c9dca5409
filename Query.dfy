/**
 * A URL before percent- and form-encoding: its path segments and its query
 * as an ordered list of entries, each a key with an optional value
 * (`append_pair` gives a value, `append_key_only` none).  The filters of
 * the client build their query from an ordered list of parameters, one per
 * filter field, each either unset, a bare key or a key with a value.
 */
module Query {
  import opened Wrappers
  import opened Text

  /** One query entry: `key=value`, or a bare `key` when the value is None. */
  datatype QueryPair = QueryPair(key: string, value: Option<string>)

  /** What one filter field contributes to the query. */
  datatype Param = Unset | KeyOnly | Pair(value: string)

  /** The entries one parameter appends under `key`: none, a bare key, or a pair. */
  function Emit(key: string, p: Param): (r: seq<QueryPair>)
    ensures |r| == if p.Unset? then 0 else 1
    ensures forall i :: 0 <= i < |r| ==> r[i].key == key
  {
    match p
    case Unset => []
    case KeyOnly => [QueryPair(key, None)]
    case Pair(v) => [QueryPair(key, Some(v))]
  }

  /** The entries for a list of parameters, one per key, in the order of the keys. */
  function EncodeParams(keys: seq<string>, vals: seq<Param>): seq<QueryPair>
    requires |keys| == |vals|
  {
    if keys == [] then [] else Emit(keys[0], vals[0]) + EncodeParams(keys[1..], vals[1..])
  }

  /** The keys of a query, in order. */
  function Keys(q: seq<QueryPair>): (r: seq<string>)
    ensures |r| == |q| && forall i :: 0 <= i < |q| ==> r[i] == q[i].key
  {
    if q == [] then [] else [q[0].key] + Keys(q[1..])
  }

  /** The value of the first entry with this key: None when no entry has it, Some(None) for a bare key. */
  function Lookup(q: seq<QueryPair>, key: string): Option<Option<string>>
  {
    if q == [] then None
    else if q[0].key == key then Some(q[0].value)
    else Lookup(q[1..], key)
  }

  /** What a lookup sees for a parameter appended on its own. */
  function Emitted(p: Param): Option<Option<string>>
  {
    match p
    case Unset => None
    case KeyOnly => Some(None)
    case Pair(v) => Some(Some(v))
  }

  /** How many of the parameters are set. */
  function CountSet(vals: seq<Param>): nat
  {
    if vals == [] then 0 else (if vals[0].Unset? then 0 else 1) + CountSet(vals[1..])
  }

  /** a is obtained from b by deleting elements: a keeps b's order. */
  predicate IsSubsequence<T(==)>(a: seq<T>, b: seq<T>)
  {
    if a == [] then true
    else if b == [] then false
    else (a[0] == b[0] && IsSubsequence(a[1..], b[1..])) || IsSubsequence(a, b[1..])
  }

  // Parameter shapes used by the filters.

  /** A plain bool flag: a bare key when true, nothing when false. */
  function FlagParam(b: bool): Param
  {
    if b then KeyOnly else Unset
  }

  /** A tri-state `Option<bool>`: "true" or "false" only when set. */
  function TriStateParam(b: Option<bool>): Param
  {
    if b.Some? then Pair(BoolToString(b.value)) else Unset
  }


  /** A field rendered by a formatter (a timestamp or a number), only when set. */
  function FormattedParam<T>(x: Option<T>, format: T -> string): Param
  {
    if x.Some? then Pair(format(x.value)) else Unset
  }

  // Facts about EncodeParams.

  /** One step of the encoding, from position k on. */
  lemma EncodeFrom(keys: seq<string>, vals: seq<Param>, k: nat)
    requires |keys| == |vals| && k < |keys|
    ensures EncodeParams(keys[k..], vals[k..]) == Emit(keys[k], vals[k]) + EncodeParams(keys[k + 1..], vals[k + 1..])
  {
    assert keys[k..][1..] == keys[k + 1..];
    assert vals[k..][1..] == vals[k + 1..];
  }

  /** The query after the parameters before position n have been appended to q. */
  function EncodeUpTo(q: seq<QueryPair>, keys: seq<string>, vals: seq<Param>, n: nat): seq<QueryPair>
    requires |keys| == |vals| && n <= |keys|
  {
    if n == 0 then q else EncodeUpTo(q, keys, vals, n - 1) + Emit(keys[n - 1], vals[n - 1])
  }

  lemma {:induction false} EncodeUpToRest(q: seq<QueryPair>, keys: seq<string>, vals: seq<Param>, n: nat)
    requires |keys| == |vals| && n <= |keys|
    ensures EncodeUpTo(q, keys, vals, n) + EncodeParams(keys[n..], vals[n..]) == q + EncodeParams(keys, vals)
  {
    if n == 0 {
      assert keys[0..] == keys && vals[0..] == vals;
    } else {
      var before, step, rest := EncodeUpTo(q, keys, vals, n - 1), Emit(keys[n - 1], vals[n - 1]), EncodeParams(keys[n..], vals[n..]);
      EncodeUpToRest(q, keys, vals, n - 1);
      EncodeFrom(keys, vals, n - 1);
      assert EncodeUpTo(q, keys, vals, n) == before + step;
      assert (before + step) + rest == before + (step + rest);
    }
  }

  /** Appending every parameter in turn gives q followed by the encoding of the list. */
  lemma EncodeUpToAll(q: seq<QueryPair>, keys: seq<string>, vals: seq<Param>)
    requires |keys| == |vals|
    ensures EncodeUpTo(q, keys, vals, |keys|) == q + EncodeParams(keys, vals)
  {
    EncodeUpToRest(q, keys, vals, |keys|);
    assert keys[|keys|..] == [] && vals[|keys|..] == [];
  }

  /**
   * One statement of an `apply_filters` body on the `query_pairs_mut`
   * serializer: appends what parameter k contributes under key k.  With the
   * parameters before k already appended to q0, the result has the
   * parameters up to and including k appended.
   */
  method AppendParam(query: seq<QueryPair>, keys: seq<string>, vals: seq<Param>, k: nat, ghost q0: seq<QueryPair>)
    returns (r: seq<QueryPair>)
    requires |keys| == |vals| && k < |keys|
    requires query == EncodeUpTo(q0, keys, vals, k)
    ensures r == EncodeUpTo(q0, keys, vals, k + 1)
  {
    match vals[k]
    case Unset => r := query;
    case KeyOnly => r := query + [QueryPair(keys[k], None)];
    case Pair(v) => r := query + [QueryPair(keys[k], Some(v))];
  }

  lemma CountFrom(vals: seq<Param>, k: nat)
    requires k < |vals|
    ensures CountSet(vals[k..]) == (if vals[k].Unset? then 0 else 1) + CountSet(vals[k + 1..])
  {
    assert vals[k..][1..] == vals[k + 1..];
  }

  /** One entry per set parameter, and none for an unset one. */
  lemma {:induction false} EncodeLength(keys: seq<string>, vals: seq<Param>)
    requires |keys| == |vals|
    ensures |EncodeParams(keys, vals)| == CountSet(vals)
  {
    if keys != [] {
      EncodeLength(keys[1..], vals[1..]);
    }
  }

  /** With every parameter unset, nothing is appended. */
  lemma {:induction false} EncodeAllUnset(keys: seq<string>, vals: seq<Param>)
    requires |keys| == |vals|
    requires forall i :: 0 <= i < |vals| ==> vals[i].Unset?
    ensures EncodeParams(keys, vals) == []
  {
    if keys != [] {
      EncodeAllUnset(keys[1..], vals[1..]);
    }
  }

  lemma {:induction false} KeysAppend(a: seq<QueryPair>, b: seq<QueryPair>)
    ensures Keys(a + b) == Keys(a) + Keys(b)
  {
  }

  /** The keys of the entries are the keys of the set parameters, in the same order. */
  lemma {:induction false} EncodeKeysInOrder(keys: seq<string>, vals: seq<Param>)
    requires |keys| == |vals|
    ensures IsSubsequence(Keys(EncodeParams(keys, vals)), keys)
  {
    if keys != [] {
      EncodeKeysInOrder(keys[1..], vals[1..]);
      var rest := EncodeParams(keys[1..], vals[1..]);
      KeysAppend(Emit(keys[0], vals[0]), rest);
      if !vals[0].Unset? {
        assert Keys(EncodeParams(keys, vals)) == [keys[0]] + Keys(rest);
        assert ([keys[0]] + Keys(rest))[1..] == Keys(rest);
      } else {
        assert EncodeParams(keys, vals) == rest;
      }
    }
  }

  lemma {:induction false} SubsequenceMembers<T>(a: seq<T>, b: seq<T>, x: T)
    requires IsSubsequence(a, b) && x in a
    ensures x in b
  {
    if a[0] == b[0] && IsSubsequence(a[1..], b[1..]) {
      if x != a[0] {
        SubsequenceMembers(a[1..], b[1..], x);
      }
    } else {
      SubsequenceMembers(a, b[1..], x);
    }
  }

  /** A subsequence of a list without repetitions has none either. */
  lemma {:induction false} SubsequenceDistinct<T>(a: seq<T>, b: seq<T>)
    requires IsSubsequence(a, b) && Distinct(b)
    ensures Distinct(a)
  {
    if a != [] {
      if a[0] == b[0] && IsSubsequence(a[1..], b[1..]) {
        SubsequenceDistinct(a[1..], b[1..]);
        if a[0] in a[1..] {
          SubsequenceMembers(a[1..], b[1..], a[0]);
        }
        forall i, j | 0 <= i < j < |a| ensures a[i] != a[j] {
          if i == 0 {
            assert a[j] == a[1..][j - 1];
          } else {
            assert a[i] == a[1..][i - 1] && a[j] == a[1..][j - 1];
          }
        }
      } else {
        SubsequenceDistinct(a, b[1..]);
      }
    }
  }

  /** When the keys are distinct, so are the keys of the query. */
  lemma EncodeDistinctKeys(keys: seq<string>, vals: seq<Param>)
    requires |keys| == |vals| && Distinct(keys)
    ensures Distinct(Keys(EncodeParams(keys, vals)))
  {
    EncodeKeysInOrder(keys, vals);
    SubsequenceDistinct(Keys(EncodeParams(keys, vals)), keys);
  }

  lemma {:induction false} LookupAppend(a: seq<QueryPair>, b: seq<QueryPair>, key: string)
    ensures Lookup(a + b, key) == if Lookup(a, key).Some? then Lookup(a, key) else Lookup(b, key)
  {
    if a != [] {
      LookupAppend(a[1..], b, key);
      assert (a + b)[0] == a[0];
      assert (a + b)[1..] == a[1..] + b;
    } else {
      assert a + b == b;
    }
  }

  /** A key that is not among the parameters' keys never appears. */
  lemma {:induction false} EncodeLookupAbsent(keys: seq<string>, vals: seq<Param>, key: string)
    requires |keys| == |vals| && key !in keys
    ensures Lookup(EncodeParams(keys, vals), key) == None
  {
    if keys != [] {
      EncodeLookupAbsent(keys[1..], vals[1..], key);
      LookupAppend(Emit(keys[0], vals[0]), EncodeParams(keys[1..], vals[1..]), key);
    }
  }

  /** With distinct keys, the query holds exactly what each parameter says under its key. */
  lemma {:induction false} EncodeLookup(keys: seq<string>, vals: seq<Param>, i: nat)
    requires |keys| == |vals| && Distinct(keys) && i < |keys|
    ensures Lookup(EncodeParams(keys, vals), keys[i]) == Emitted(vals[i])
  {
    var rest := EncodeParams(keys[1..], vals[1..]);
    LookupAppend(Emit(keys[0], vals[0]), rest, keys[i]);
    if i == 0 {
      if vals[0].Unset? {
        assert keys[0] !in keys[1..] by {
          forall j | 0 <= j < |keys[1..]| ensures keys[1..][j] != keys[0] {
            assert keys[1..][j] == keys[j + 1];
          }
        }
        EncodeLookupAbsent(keys[1..], vals[1..], keys[0]);
      }
    } else {
      assert Distinct(keys[1..]) by {
        forall a, b | 0 <= a < b < |keys[1..]| ensures keys[1..][a] != keys[1..][b] {
          assert keys[1..][a] == keys[a + 1] && keys[1..][b] == keys[b + 1];
        }
      }
      EncodeLookup(keys[1..], vals[1..], i - 1);
      assert keys[1..][i - 1] == keys[i];
    }
  }

  /** A key has an entry exactly when a lookup finds one. */
  lemma {:induction false} LookupFound(q: seq<QueryPair>, key: string)
    ensures Lookup(q, key).Some? <==> key in Keys(q)
  {
    if q != [] {
      LookupFound(q[1..], key);
      assert Keys(q) == [q[0].key] + Keys(q[1..]);
    }
  }

  /** A list without repetitions has as many elements as its set of elements. */
  lemma {:induction false} DistinctCard<T>(s: seq<T>)
    requires Distinct(s)
    ensures |set x | x in s| == |s|
  {
    if s != [] {
      assert Distinct(s[1..]) by {
        forall i, j | 0 <= i < j < |s[1..]| ensures s[1..][i] != s[1..][j] {
          assert s[1..][i] == s[i + 1] && s[1..][j] == s[j + 1];
        }
      }
      DistinctCard(s[1..]);
      assert s[0] !in s[1..] by {
        forall i | 0 <= i < |s[1..]| ensures s[1..][i] != s[0] {
          assert s[1..][i] == s[i + 1];
        }
      }
      assert (set x | x in s) == {s[0]} + (set x | x in s[1..]);
    }
  }

  /** The keys among `keys` that have an entry in q. */
  function Present(q: seq<QueryPair>, keys: seq<string>): set<string>
  {
    set k | k in keys && Lookup(q, k).Some?
  }

  /**
   * With distinct keys, the query has one entry per key that a lookup
   * finds: its length is the number of keys that are present.
   */
  lemma EncodeCountPresent(keys: seq<string>, vals: seq<Param>)
    requires |keys| == |vals| && Distinct(keys)
    ensures var q := EncodeParams(keys, vals);
      |q| == |Present(q, keys)|
  {
    var q := EncodeParams(keys, vals);
    EncodeDistinctKeys(keys, vals);
    EncodeKeysInOrder(keys, vals);
    DistinctCard(Keys(q));
    var present := Present(q, keys);
    var found := set x | x in Keys(q);
    forall k | k in present ensures k in found {
      LookupFound(q, k);
    }
    forall k | k in found ensures k in present {
      LookupFound(q, k);
      SubsequenceMembers(Keys(q), keys, k);
    }
    assert present == found;
  }

  /** A URL being built: its path segments and its query entries, before any encoding. */
  class Url {
    var path: seq<string>
    var query: seq<QueryPair>

    constructor (path: seq<string>, query: seq<QueryPair>)
      ensures this.path == path && this.query == query
    {
      this.path := path;
      this.query := query;
    }

    /** `url.clone()`: a new URL with the same parts. */
    method Clone() returns (u: Url)
      ensures fresh(u) && u.path == path && u.query == query
    {
      u := new Url(path, query);
    }

    /** `path_segments_mut().push(segment)`. */
    method Push(segment: string)
      modifies this
      ensures path == old(path) + [segment] && query == old(query)
    {
      path := path + [segment];
    }

    /** Replaces the query: what dropping a `query_pairs_mut` serializer writes back. */
    method SetQuery(q: seq<QueryPair>)
      modifies this
      ensures query == q && path == old(path)
    {
      query := q;
    }
  }
}
