/** Lists without duplicates and their use as the order of an LRU map. */
module LruLists {
  import opened LimiterSpec

  ghost predicate NoDup(s: seq<Key>) { forall i, j :: 0 <= i < j < |s| ==> s[i] != s[j] }

  /** `s` lists the keys in `keys`, each once. */
  ghost predicate Lists(s: seq<Key>, keys: set<Key>) {
    NoDup(s) && (forall i :: 0 <= i < |s| ==> s[i] in keys) && (forall key :: key in keys ==> key in s)
  }

  lemma RemoveAt(s: seq<Key>, i: nat, keys: set<Key>)
    requires i < |s| && Lists(s, keys)
    ensures Lists(s[..i] + s[i + 1..], keys - {s[i]})
  {
    var r := s[..i] + s[i + 1..];
    forall key | key in keys - {s[i]} ensures key in r {
      var j :| 0 <= j < |s| && s[j] == key;
      assert r[if j < i then j else j - 1] == key;
    }
  }

  lemma PushFront(s: seq<Key>, key: Key, keys: set<Key>)
    requires Lists(s, keys) && key !in keys
    ensures Lists([key] + s, keys + {key})
  {
    var r := [key] + s;
    forall k | k in keys + {key} ensures k in r {
      if k != key {
        var j :| 0 <= j < |s| && s[j] == k;
        assert r[j + 1] == k;
      } else {
        assert r[0] == key;
      }
    }
  }

  lemma {:induction false} WithoutIsRemoveAt(s: seq<Key>, key: Key) returns (i: nat)
    requires key in s
    ensures i < |s| && s[i] == key && Without(s, key) == s[..i] + s[i + 1..]
  {
    if s[0] == key {
      i := 0;
    } else {
      i := WithoutIsRemoveAt(s[1..], key);
      i := i + 1;
      assert s == [s[0]] + s[1..];
    }
  }

  lemma RemoveKey(s: seq<Key>, key: Key, keys: set<Key>)
    requires Lists(s, keys) && key in keys
    ensures Lists(Without(s, key), keys - {key})
  {
    var i := WithoutIsRemoveAt(s, key);
    RemoveAt(s, i, keys);
  }

  lemma MoveToFront(s: seq<Key>, key: Key, keys: set<Key>)
    requires Lists(s, keys) && key in keys
    ensures Lists([key] + Without(s, key), keys)
  {
    RemoveKey(s, key, keys);
    PushFront(Without(s, key), key, keys - {key});
    assert keys - {key} + {key} == keys;
  }
}
