/**
 * The parts of Python's built-in semantics that the modelled code relies on:
 * raised exceptions, list indexing with negative indices, `list.index`,
 * `list.remove`, slicing, and the insertion-ordered `dict`.
 */
module Py {

  datatype Option<+T> = None | Some(value: T)

  /**
   * The exceptions the modelled code can raise without catching them itself;
   * `ApiError` is whatever the language-model client raises when a request fails.
   */
  datatype Exception = KeyError | IndexError | ValueError | ZeroDivisionError | ApiError

  /** What a Python call does: return a value or raise an exception. */
  datatype Outcome<+T> = Return(value: T) | Raise(exception: Exception)

  predicate Distinct<T(==)>(s: seq<T>) {
    forall i, j :: 0 <= i < j < |s| ==> s[i] != s[j]
  }

  function Max(a: int, b: int): int { if a < b then b else a }

  function Min(a: int, b: int): int { if a < b then a else b }

  /** `s[i]` on a list: a negative index counts from the end; out of range raises IndexError. */
  function At<T>(s: seq<T>, i: int): (r: Outcome<T>)
    ensures r.Return? <==> -|s| <= i < |s|
    ensures r.Return? ==> r.value == s[if i < 0 then |s| + i else i]
  {
    if 0 <= i < |s| then Return(s[i])
    else if -|s| <= i < 0 then Return(s[|s| + i])
    else Raise(IndexError)
  }

  /** Position that a slice bound `i` denotes in a list of length `n`. */
  function SliceBound(n: nat, i: int): (j: nat)
    ensures j <= n
    ensures 0 <= i <= n ==> j == i
  {
    if i < 0 then (if n + i < 0 then 0 else n + i)
    else if i > n then n
    else i
  }

  /** `s[a:b]` with Python's clamping and negative bounds. */
  function Slice<T>(s: seq<T>, a: int, b: int): (r: seq<T>)
    ensures 0 <= a <= b <= |s| ==> r == s[a..b]
    ensures 0 <= a <= |s| <= b ==> r == s[a..]
  {
    var i, j := SliceBound(|s|, a), SliceBound(|s|, b);
    if i < j then s[i..j] else []
  }

  /** `s.index(x)`: the position of the first occurrence of `x`. */
  function IndexOf<T(==)>(s: seq<T>, x: T): (i: nat)
    requires x in s
    ensures i < |s| && s[i] == x && x !in s[..i]
  {
    if s[0] == x then 0
    else
      assert x in s[1..] by { assert s == [s[0]] + s[1..]; }
      var j := IndexOf(s[1..], x);
      assert s[..j + 1] == [s[0]] + s[1..][..j];
      j + 1
  }

  /** `s.remove(x)`: the list without the first occurrence of `x`. */
  function RemoveFirst<T(==)>(s: seq<T>, x: T): (r: seq<T>)
    requires x in s
    ensures |r| == |s| - 1
    ensures multiset(r) == multiset(s) - multiset{x}
    ensures r == s[..IndexOf(s, x)] + s[IndexOf(s, x) + 1..]
  {
    var i := IndexOf(s, x);
    assert s == s[..i] + [s[i]] + s[i + 1..];
    s[..i] + s[i + 1..]
  }

  /** Removing a key from a list without duplicates leaves exactly the other keys. */
  lemma RemoveFirstDistinct<T>(s: seq<T>, x: T)
    requires Distinct(s) && x in s
    ensures Distinct(RemoveFirst(s, x))
    ensures forall y :: y in RemoveFirst(s, x) <==> y in s && y != x
  {
    var i := IndexOf(s, x);
    var r := s[..i] + s[i + 1..];
    assert RemoveFirst(s, x) == r;
    RemovedDistinct(s, i);
    RemovedMembers(s, i);
  }

  lemma RemovedDistinct<T>(s: seq<T>, i: nat)
    requires Distinct(s) && i < |s|
    ensures Distinct(s[..i] + s[i + 1..])
  {
    var r := s[..i] + s[i + 1..];
    forall a, b | 0 <= a < b < |r| ensures r[a] != r[b] {
      var a' := if a < i then a else a + 1;
      var b' := if b < i then b else b + 1;
      assert r[a] == s[a'] && r[b] == s[b'];
    }
  }

  lemma RemovedMembers<T>(s: seq<T>, i: nat)
    requires Distinct(s) && i < |s|
    ensures forall y :: y in s[..i] + s[i + 1..] <==> y in s && y != s[i]
  {
    var r := s[..i] + s[i + 1..];
    forall y ensures y in r <==> y in s && y != s[i] {
      if y in r {
        var q :| 0 <= q < |r| && r[q] == y;
        var q' := if q < i then q else q + 1;
        assert s[q'] == y && q' != i;
      }
      if y in s && y != s[i] {
        var q :| 0 <= q < |s| && s[q] == y;
        assert q != i;
        assert r[if q < i then q else q - 1] == y;
      }
    }
  }

  /** A Python `dict` with string keys, as a map plus the keys in insertion order. */
  datatype RawDict<V> = RawDict(keys: seq<string>, items: map<string, V>) {
    ghost predicate Wf() {
      Distinct(keys) && forall k :: k in items <==> k in keys
    }
  }

  type Dict<V> = d: RawDict<V> | d.Wf() witness RawDict([], map[])

  /** `d[k] = v`: an existing key keeps its place, a new key goes last. */
  function Put<V>(d: Dict<V>, k: string, v: V): (r: Dict<V>)
    ensures r.items == d.items[k := v]
    ensures k in d.items ==> r.keys == d.keys
    ensures k !in d.items ==> r.keys == d.keys + [k]
  {
    if k in d.items then RawDict(d.keys, d.items[k := v])
    else
      var r := RawDict(d.keys + [k], d.items[k := v]);
      assert r.Wf() by {
        forall i, j | 0 <= i < j < |r.keys| ensures r.keys[i] != r.keys[j] {
          if j == |d.keys| { assert r.keys[i] == d.keys[i]; assert d.keys[i] in d.items; }
        }
      }
      r
  }

  /** `d.pop(k)` (after its value has been read): the key leaves the order and the map. */
  function Pop<V>(d: Dict<V>, k: string): (r: Dict<V>)
    requires k in d.items
    ensures r.items == d.items - {k}
    ensures r.keys == RemoveFirst(d.keys, k)
  {
    RemoveFirstDistinct(d.keys, k);
    RawDict(RemoveFirst(d.keys, k), d.items - {k})
  }
}
