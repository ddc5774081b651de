/**
 The sequence operations the reducers perform on a draft array of records
 that carry a string id: `findIndex` by id and `splice(index, 1)` of the
 first match. A record's id is read through a key projection.
 */
module Lists {

  /** Index of the first element whose key is k, or -1 when there is none
      (the contract of `Array.prototype.findIndex`). */
  function FirstIndex<T>(s: seq<T>, key: T -> string, k: string): (r: int)
    ensures -1 <= r < |s|
    ensures r == -1 <==> forall i :: 0 <= i < |s| ==> key(s[i]) != k
    ensures 0 <= r ==> key(s[r]) == k && forall i :: 0 <= i < r ==> key(s[i]) != k
  {
    if |s| == 0 then -1
    else if key(s[0]) == k then 0
    else
      var rest := FirstIndex(s[1..], key, k);
      if rest == -1 then -1 else rest + 1
  }

  /** The `findIndex` loop itself. */
  method FindIndex<T>(s: seq<T>, key: T -> string, k: string) returns (index: int)
    ensures index == FirstIndex(s, key, k)
  {
    index := 0;
    while index < |s| && key(s[index]) != k
      invariant 0 <= index <= |s|
      invariant forall i :: 0 <= i < index ==> key(s[i]) != k
    {
      index := index + 1;
    }
    if index == |s| {
      index := -1;
    }
  }

  /** `const i = s.findIndex(...); if (i !== -1) s.splice(i, 1)`: drop the first
      element with key k, keep the order of the others; no match, no change. */
  function RemoveFirst<T>(s: seq<T>, key: T -> string, k: string): (r: seq<T>)
    ensures FirstIndex(s, key, k) == -1 ==> r == s
    ensures FirstIndex(s, key, k) >= 0 ==> |r| == |s| - 1
    ensures forall j :: 0 <= j < |r| && j < FirstIndex(s, key, k) ==> r[j] == s[j]
    ensures 0 <= FirstIndex(s, key, k) ==>
              forall j :: FirstIndex(s, key, k) <= j < |r| ==> r[j] == s[j + 1]
  {
    var i := FirstIndex(s, key, k);
    if i == -1 then s else s[..i] + s[i + 1..]
  }

  /** Where the first match sits depends only on the keys, position by position. */
  lemma FirstIndexOfSameKeys<T>(s: seq<T>, t: seq<T>, key: T -> string, k: string)
    requires |s| == |t|
    requires forall j :: 0 <= j < |s| ==> key(s[j]) == key(t[j])
    ensures FirstIndex(s, key, k) == FirstIndex(t, key, k)
  {
  }

  /** No two elements share a key. */
  predicate UniqueKeys<T>(s: seq<T>, key: T -> string)
  {
    forall i, j :: 0 <= i < j < |s| ==> key(s[i]) != key(s[j])
  }

  /** The keys occurring in s. */
  function KeySet<T>(s: seq<T>, key: T -> string): set<string>
  {
    set i | 0 <= i < |s| :: key(s[i])
  }

  /** Removing the first element with key k from a sequence with unique keys
      removes exactly the key k: no element with that key is left, every
      other key stays, and the keys stay unique. */
  lemma RemoveFirstOfUnique<T>(s: seq<T>, key: T -> string, k: string)
    requires UniqueKeys(s, key)
    ensures UniqueKeys(RemoveFirst(s, key, k), key)
    ensures KeySet(RemoveFirst(s, key, k), key) == KeySet(s, key) - {k}
  {
    var r := RemoveFirst(s, key, k);
    var i := FirstIndex(s, key, k);
    if i == -1 {
      assert k !in KeySet(s, key);
    } else {
      forall x | x in KeySet(s, key) - {k}
        ensures x in KeySet(r, key)
      {
        var j :| 0 <= j < |s| && key(s[j]) == x;
        if j < i {
          assert key(r[j]) == x;
        } else {
          assert j != i;
          assert key(r[j - 1]) == x;
        }
      }
      forall x | x in KeySet(r, key)
        ensures x in KeySet(s, key) - {k}
      {
        var j :| 0 <= j < |r| && key(r[j]) == x;
        if j >= i {
          assert r[j] == s[j + 1];
        }
      }
    }
  }
}
