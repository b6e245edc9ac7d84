/** Python values as the speaker's request-handling code sees them: the
    JSON-shaped results of parsing the language model's output, with the
    dictionary operations, truthiness and equality Python gives them.
    Exceptions are values of `Py<T>` rather than control flow. */
module PyValue {

  /** A JSON-shaped Python value. Numbers are reals (Python's `1 == 1.0`);
      a dict is its entries in insertion order, as Python 3.7+ keeps them. */
  datatype Value =
    | None
    | Bool(b: bool)
    | Num(n: real)
    | Str(s: string)
    | List(items: seq<Value>)
    | Dict(entries: seq<(string, Value)>)

  /** The exceptions the modelled code can raise. `CollaboratorError` stands
      for any exception raised inside a collaborator whose code is not part
      of this model (geocoder, day resolver, parser, timestamp conversion). */
  datatype PyError =
    | KeyError(key: Value)
    | IndexError
    | TypeError
    | AttributeError
    | CollaboratorError(name: string)

  /** The result of a Python expression: a value, or the exception it raised. */
  datatype Py<+T> = Ok(value: T) | Raise(error: PyError)

  /** Python's truth test (`if v:`). */
  predicate Truthy(v: Value) {
    match v
    case None => false
    case Bool(b) => b
    case Num(n) => n != 0.0
    case Str(s) => s != ""
    case List(xs) => xs != []
    case Dict(es) => es != []
  }

  /** The numeric value of a bool or number: Python's `True == 1`, `False == 0`. */
  function NumberOf(v: Value): real
    requires v.Bool? || v.Num?
  {
    if v.Bool? then (if v.b then 1.0 else 0.0) else v.n
  }

  /** Python's `==` on these values. Dicts are compared entry by entry in
      order, which is stricter than Python's order-insensitive dict equality. */
  predicate PyEq(a: Value, b: Value)
    decreases a
  {
    match a
    case None => b.None?
    case Bool(_) => (b.Bool? || b.Num?) && NumberOf(a) == NumberOf(b)
    case Num(_) => (b.Bool? || b.Num?) && NumberOf(a) == NumberOf(b)
    case Str(s) => b.Str? && b.s == s
    case List(xs) =>
      b.List? && |xs| == |b.items| && forall i :: 0 <= i < |xs| ==> PyEq(xs[i], b.items[i])
    case Dict(_) => a == b
  }

  /** The value can be put in a set: lists and dicts cannot. */
  predicate Hashable(v: Value) {
    !v.List? && !v.Dict?
  }

  /** `key` is a key of the dict entries `es`. */
  predicate HasKey(es: seq<(string, Value)>, key: string) {
    exists i :: 0 <= i < |es| && es[i].0 == key
  }

  /** Two dicts have the same keys at the same positions. */
  predicate SameKeys(a: seq<(string, Value)>, b: seq<(string, Value)>) {
    |a| == |b| && forall i :: 0 <= i < |a| ==> a[i].0 == b[i].0
  }

  /** `d[key]` on a dict: the value of the first entry with that key, or KeyError. */
  function Find(es: seq<(string, Value)>, key: string): (r: Py<Value>)
    ensures r.Raise? ==> r.error == KeyError(Str(key))
  {
    if es == [] then Raise(KeyError(Str(key)))
    else if es[0].0 == key then Ok(es[0].1)
    else Find(es[1..], key)
  }

  /** A lookup succeeds exactly for the keys of the dict. */
  lemma {:induction false} FindFound(es: seq<(string, Value)>, key: string)
    ensures Find(es, key).Ok? <==> HasKey(es, key)
  {
    if es != [] && es[0].0 != key {
      FindFound(es[1..], key);
      if HasKey(es, key) {
        var i :| 0 <= i < |es| && es[i].0 == key;
        assert es[1..][i - 1].0 == key;
      }
      if HasKey(es[1..], key) {
        var i :| 0 <= i < |es[1..]| && es[1..][i].0 == key;
        assert es[i + 1].0 == key;
      }
    }
  }

  /** `d[key] = v` on a dict: an existing entry keeps its position and takes
      the new value; a new key is appended. */
  function SetItem(es: seq<(string, Value)>, key: string, v: Value): (r: seq<(string, Value)>)
  {
    if es == [] then [(key, v)]
    else if es[0].0 == key then [(key, v)] + es[1..]
    else [es[0]] + SetItem(es[1..], key, v)
  }

  /** After `d[key] = v`, `d[key]` is `v` and every other key reads as before. */
  lemma {:induction false} SetItemFind(es: seq<(string, Value)>, key: string, v: Value)
    ensures forall k :: Find(SetItem(es, key, v), k) == if k == key then Ok(v) else Find(es, k)
  {
    if es != [] && es[0].0 != key {
      SetItemFind(es[1..], key, v);
      assert ([es[0]] + SetItem(es[1..], key, v))[1..] == SetItem(es[1..], key, v);
    } else if es != [] {
      assert ([(key, v)] + es[1..])[1..] == es[1..];
    }
  }

  /** `d[key] = v` keeps the keys and their positions when `key` is present,
      and appends the entry when it is not. */
  lemma {:induction false} SetItemKeys(es: seq<(string, Value)>, key: string, v: Value)
    ensures HasKey(es, key) ==> SameKeys(SetItem(es, key, v), es)
    ensures !HasKey(es, key) ==> SetItem(es, key, v) == es + [(key, v)]
  {
    if es != [] && es[0].0 != key {
      SetItemKeys(es[1..], key, v);
      var tail := SetItem(es[1..], key, v);
      assert HasKey(es, key) ==> HasKey(es[1..], key) by {
        if HasKey(es, key) {
          var i :| 0 <= i < |es| && es[i].0 == key;
          assert es[1..][i - 1].0 == key;
        }
      }
      assert !HasKey(es, key) ==> !HasKey(es[1..], key) by {
        if HasKey(es[1..], key) {
          var i :| 0 <= i < |es[1..]| && es[1..][i].0 == key;
          assert es[i + 1].0 == key;
        }
      }
      assert [es[0]] + (es[1..] + [(key, v)]) == es + [(key, v)];
    } else if es == [] {
      assert !HasKey(es, key);
    }
  }

  /** `v[key]` with a string key: only a dict can be indexed by a string. */
  function GetItem(v: Value, key: string): (r: Py<Value>)
  {
    match v
    case Dict(es) => Find(es, key)
    case _ => Raise(TypeError)
  }

  /** `v[i]` with a non-negative integer index. A string yields the
      one-character string; a dict has only string keys, so KeyError. */
  function Index(v: Value, i: nat): (r: Py<Value>)
    ensures r.Ok? <==> (v.List? && i < |v.items|) || (v.Str? && i < |v.s|)
  {
    match v
    case List(xs) => if i < |xs| then Ok(xs[i]) else Raise(IndexError)
    case Str(s) => if i < |s| then Ok(Str([s[i]])) else Raise(IndexError)
    case Dict(_) => Raise(KeyError(Num(i as real)))
    case _ => Raise(TypeError)
  }

  /** `len(v)`: defined for strings, lists and dicts. */
  function Len(v: Value): (r: Py<nat>)
    ensures r.Ok? <==> v.Str? || v.List? || v.Dict?
    ensures v.List? ==> r == Ok(|v.items|)
    ensures v.Str? ==> r == Ok(|v.s|)
  {
    match v
    case Str(s) => Ok(|s|)
    case List(xs) => Ok(|xs|)
    case Dict(es) => Ok(|es|)
    case _ => Raise(TypeError)
  }
}
