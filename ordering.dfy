/**
 * Text order and the descending sort the Q&A listings use: Python's `<`
 * on `str` and SQLite's default collation both compare strings character
 * by character, a proper prefix coming first.
 */
module Ordering {

  /** `a <= b` on strings: lexicographic by code point. */
  predicate StrLe(a: string, b: string)
    decreases |a|
  {
    a == [] || (b != [] && (a[0] < b[0] || (a[0] == b[0] && StrLe(a[1..], b[1..]))))
  }

  lemma {:induction false} StrLeTotal(a: string, b: string)
    ensures StrLe(a, b) || StrLe(b, a)
    decreases |a|
  {
    if a != [] && b != [] && a[0] == b[0] {
      StrLeTotal(a[1..], b[1..]);
    }
  }

  lemma {:induction false} StrLeTransitive(a: string, b: string, c: string)
    requires StrLe(a, b) && StrLe(b, c)
    ensures StrLe(a, c)
    decreases |a|
  {
    if a != [] && a[0] == b[0] && b[0] == c[0] {
      StrLeTransitive(a[1..], b[1..], c[1..]);
    }
  }

  lemma {:induction false} StrLeAntisymmetric(a: string, b: string)
    requires StrLe(a, b) && StrLe(b, a)
    ensures a == b
    decreases |a|
  {
    if a != [] {
      StrLeAntisymmetric(a[1..], b[1..]);
      assert a == [a[0]] + a[1..] && b == [b[0]] + b[1..];
    }
  }

  /** Latest first: every element's key is at least the key of every element after it. */
  predicate KeysDescending<T>(s: seq<T>, key: T -> string) {
    forall i, j :: 0 <= i < j < |s| ==> StrLe(key(s[j]), key(s[i]))
  }

  /** Insert `x` into a descending list in front of the first element whose key is smaller. */
  function InsertDesc<T>(x: T, s: seq<T>, key: T -> string): (r: seq<T>)
    requires KeysDescending(s, key)
    ensures KeysDescending(r, key)
    ensures multiset(r) == multiset(s) + multiset{x}
  {
    if s == [] || StrLe(key(s[0]), key(x)) then
      HeadAboveRest(x, s, key);
      [x] + s
    else
      var rest := InsertDesc(x, s[1..], key);
      assert s == [s[0]] + s[1..];
      HeadAboveInserted(x, s, rest, key);
      [s[0]] + rest
  }

  lemma HeadAboveRest<T>(x: T, s: seq<T>, key: T -> string)
    requires KeysDescending(s, key)
    requires s == [] || StrLe(key(s[0]), key(x))
    ensures KeysDescending([x] + s, key)
  {
    var all := [x] + s;
    forall i, j | 0 <= i < j < |all| ensures StrLe(key(all[j]), key(all[i])) {
      if i == 0 {
        if j > 1 {
          StrLeTransitive(key(s[j - 1]), key(s[0]), key(x));
        }
      } else {
        assert all[i] == s[i - 1] && all[j] == s[j - 1];
      }
    }
  }

  /** What is inserted behind the head of a descending list has a key no greater than the head's. */
  lemma HeadAboveInserted<T>(x: T, s: seq<T>, rest: seq<T>, key: T -> string)
    requires KeysDescending(s, key) && s != [] && !StrLe(key(s[0]), key(x))
    requires KeysDescending(rest, key) && multiset(rest) == multiset(s[1..]) + multiset{x}
    ensures KeysDescending([s[0]] + rest, key)
  {
    StrLeTotal(key(s[0]), key(x));
    var all := [s[0]] + rest;
    forall i, j | 0 <= i < j < |all| ensures StrLe(key(all[j]), key(all[i])) {
      if i == 0 {
        var y := rest[j - 1];
        assert y in multiset(rest);
        if y != x {
          assert y in multiset(s[1..]);
          var k :| 0 <= k < |s[1..]| && s[1..][k] == y;
          assert s[k + 1] == y;
        }
      } else {
        assert all[i] == rest[i - 1] && all[j] == rest[j - 1];
      }
    }
  }

  /** The same elements, latest key first. */
  function SortDesc<T>(s: seq<T>, key: T -> string): (r: seq<T>)
    ensures KeysDescending(r, key)
    ensures multiset(r) == multiset(s)
  {
    if s == [] then []
    else
      assert s == [s[0]] + s[1..];
      InsertDesc(s[0], SortDesc(s[1..], key), key)
  }
}
