/** Python values as they reach the prompt plugin through the task's arguments,
    and the two ways Python's subscript `v[k]` can fail on them. */
module Values {

  datatype Option<+T> = None | Some(value: T)

  datatype Result<+T, +E> = Ok(value: T) | Err(error: E)

  /** A value parsed from the task's YAML arguments. A dictionary is kept as its
      entries in iteration order, so that "the first key" is well defined. */
  datatype Value =
    | Null
    | Bool(b: bool)
    | Int(i: int)
    | Str(s: string)
    | List(items: seq<Value>)
    | Dict(entries: Entries)

  type Entries = seq<(string, Value)>

  /** The exceptions an unguarded subscript raises: a missing key in a
      dictionary, or a subscript by string on anything that is not one. */
  datatype PyError = KeyError(key: string) | TypeError

  /** `k in d` for a dictionary with entries `e`. */
  predicate HasKey(e: Entries, k: string)
  {
    exists i :: 0 <= i < |e| && e[i].0 == k
  }

  /** The value stored under `k`, if any (the first entry with that key). */
  function Lookup(e: Entries, k: string): (r: Option<Value>)
    ensures r.None? <==> !HasKey(e, k)
    ensures r.Some? ==> exists i :: 0 <= i < |e| && e[i] == (k, r.value)
  {
    if e == [] then None
    else if e[0].0 == k then Some(e[0].1)
    else
      var r := Lookup(e[1..], k);
      assert HasKey(e, k) ==> HasKey(e[1..], k) by {
        if HasKey(e, k) {
          var i :| 0 <= i < |e| && e[i].0 == k;
          assert e[1..][i - 1].0 == k;
        }
      }
      assert r.Some? ==> exists i :: 0 <= i < |e| && e[i] == (k, r.value) by {
        if r.Some? {
          var i :| 0 <= i < |e[1..]| && e[1..][i] == (k, r.value);
          assert e[i + 1] == (k, r.value);
        }
      }
      r
  }

  /** Python's `v[k]` for a string key `k`. */
  function GetItem(v: Value, k: string): (r: Result<Value, PyError>)
    ensures r.Ok? <==> v.Dict? && HasKey(v.entries, k)
    ensures r.Ok? ==> exists i :: 0 <= i < |v.entries| && v.entries[i] == (k, r.value)
    ensures r.Err? ==> r.error == if v.Dict? then KeyError(k) else TypeError
  {
    match v
    case Dict(e) =>
      (match Lookup(e, k)
       case Some(x) => Ok(x)
       case None => Err(KeyError(k)))
    case _ => Err(TypeError)
  }

  /** Slicing facts, proved once away from any other context. */
  lemma SplitAt<T>(s: seq<T>, i: int)
    requires 0 <= i < |s|
    ensures s[..i + 1] == s[..i] + [s[i]]
    ensures s == s[..i + 1] + s[i + 1..]
  {
  }

  lemma AppendLast<T>(s: seq<T>, t: seq<T>)
    requires t != []
    ensures t == t[..|t| - 1] + [t[|t| - 1]]
    ensures s + t == (s + t[..|t| - 1]) + [t[|t| - 1]]
  {
  }

  lemma AppendAssoc<T>(a: seq<T>, b: seq<T>, c: seq<T>)
    ensures a + b + c == a + (b + c)
  {
  }
}
