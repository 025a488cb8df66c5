/** A template's variable values as the smart-scripting pages hold them: a
    JavaScript object with string values, kept as its entries in key order,
    and the operations the pages apply to it (spread-update, filtering keys
    by prefix, ordering voice-text keys by their numeric suffix). */
module TemplateData {
  import opened Common

  /** `Object.entries(data)`; keys are distinct. */
  type Entries = seq<(string, string)>

  function Keys(e: Entries): (r: seq<string>)
    ensures |r| == |e|
    ensures forall i :: 0 <= i < |e| ==> r[i] == e[i].0
  {
    if e == [] then [] else [e[0].0] + Keys(e[1..])
  }

  predicate DistinctKeys(e: Entries) {
    forall i, j :: 0 <= i < j < |e| ==> e[i].0 != e[j].0
  }

  /** `data[key]` */
  function Get(e: Entries, k: string): (r: Option<string>)
    ensures r.None? <==> k !in Keys(e)
    ensures r.Some? ==> (k, r.value) in e
  {
    if e == [] then None
    else if e[0].0 == k then Some(e[0].1)
    else Get(e[1..], k)
  }

  /** `{ ...data, [key]: val }`: an existing key keeps its place and takes
      the new value; a new key goes last. */
  function Put(e: Entries, k: string, v: string): (r: Entries)
    ensures Get(r, k) == Some(v)
    ensures forall j :: j != k ==> Get(r, j) == Get(e, j)
  {
    if e == [] then [(k, v)]
    else if e[0].0 == k then
      assert ([(k, v)] + e[1..])[1..] == e[1..];
      [(k, v)] + e[1..]
    else
      var rest := Put(e[1..], k, v);
      assert ([e[0]] + rest)[1..] == rest;
      [e[0]] + rest
  }

  /** The spread-update keeps the key order and appends a new key. */
  lemma {:induction false} PutKeys(e: Entries, k: string, v: string)
    ensures Keys(Put(e, k, v)) == if k in Keys(e) then Keys(e) else Keys(e) + [k]
  {
    if e != [] && e[0].0 != k {
      PutKeys(e[1..], k, v);
      assert Keys(e) == [e[0].0] + Keys(e[1..]);
      var rest := Put(e[1..], k, v);
      assert ([e[0]] + rest)[1..] == rest;
    }
  }

  /** The spread-update never duplicates a key. */
  lemma PutKeepsKeysDistinct(e: Entries, k: string, v: string)
    requires DistinctKeys(e)
    ensures DistinctKeys(Put(e, k, v))
  {
    PutKeys(e, k, v);
    var r := Put(e, k, v);
    var ks := Keys(r);
    if k !in Keys(e) {
      assert forall i :: 0 <= i < |e| ==> ks[i] == Keys(e)[i];
    }
  }

  /** The object the entries describe; the first entry for a key wins. */
  function ToMap(e: Entries): map<string, string> {
    if e == [] then map[] else ToMap(e[1..])[e[0].0 := e[0].1]
  }

  /** The object has exactly the entries' keys, and reads as `Get` does. */
  lemma {:induction false} ToMapGet(e: Entries)
    ensures ToMap(e).Keys == set k | k in Keys(e)
    ensures forall k :: k in ToMap(e) ==> Get(e, k) == Some(ToMap(e)[k])
  {
    if e != [] {
      ToMapGet(e[1..]);
      assert Keys(e) == [e[0].0] + Keys(e[1..]);
    }
  }

  /** The spread-update is a map update of the object. */
  lemma {:induction false} ToMapPut(e: Entries, k: string, v: string)
    ensures ToMap(Put(e, k, v)) == ToMap(e)[k := v]
  {
    if e == [] {
      assert [(k, v)][1..] == [];
    } else if e[0].0 == k {
      assert ([(k, v)] + e[1..])[1..] == e[1..];
    } else {
      var rest := Put(e[1..], k, v);
      ToMapPut(e[1..], k, v);
      assert ([e[0]] + rest)[1..] == rest;
    }
  }

  /** `keys.map(key => data[key])` over keys the object has. */
  function ValuesAt(e: Entries, keys: seq<string>): (r: seq<string>)
    requires forall k :: k in keys ==> k in Keys(e)
    ensures |r| == |keys|
    ensures forall i :: 0 <= i < |r| ==> Get(e, keys[i]) == Some(r[i])
  {
    if keys == [] then [] else [Get(e, keys[0]).value] + ValuesAt(e, keys[1..])
  }

  /** The keys that start with `prefix`, in order. */
  function KeysWithPrefix(keys: seq<string>, prefix: string): (r: seq<string>)
    ensures |r| <= |keys|
    ensures forall i :: 0 <= i < |r| ==> StartsWith(r[i], prefix) && r[i] in keys
    ensures forall k :: k in keys && StartsWith(k, prefix) ==> k in r
  {
    if keys == [] then []
    else (if StartsWith(keys[0], prefix) then [keys[0]] else []) + KeysWithPrefix(keys[1..], prefix)
  }

  /** The entries whose key does not start with `prefix`, in order. */
  function EntriesWithoutPrefix(e: Entries, prefix: string): (r: Entries)
    ensures |r| <= |e|
    ensures forall i :: 0 <= i < |r| ==> !StartsWith(r[i].0, prefix) && r[i] in e
    ensures forall p :: p in e && !StartsWith(p.0, prefix) ==> p in r
  {
    if e == [] then []
    else (if !StartsWith(e[0].0, prefix) then [e[0]] else []) + EntriesWithoutPrefix(e[1..], prefix)
  }

  /** Filtering by a prefix and by its negation splits the keys in two. */
  lemma {:induction false} PrefixPartition(e: Entries, prefix: string)
    ensures multiset(KeysWithPrefix(Keys(e), prefix)) + multiset(Keys(EntriesWithoutPrefix(e, prefix)))
         == multiset(Keys(e))
  {
    if e != [] {
      PrefixPartition(e[1..], prefix);
      var ks := Keys(e);
      assert ks == [e[0].0] + Keys(e[1..]);
      assert ks[1..] == Keys(e[1..]);
      var rest := EntriesWithoutPrefix(e[1..], prefix);
      var left := KeysWithPrefix(Keys(e[1..]), prefix);
      if StartsWith(e[0].0, prefix) {
        assert KeysWithPrefix(ks, prefix) == [e[0].0] + left;
        assert EntriesWithoutPrefix(e, prefix) == rest;
      } else {
        assert KeysWithPrefix(ks, prefix) == left;
        assert EntriesWithoutPrefix(e, prefix) == [e[0]] + rest;
        assert ([e[0]] + rest)[1..] == rest;
        assert Keys([e[0]] + rest) == [e[0].0] + Keys(rest);
      }
    }
  }

  // ---------------------------------------------------------------------------
  // Ordering by numeric suffix

  /** `parseInt(key.replace(prefix, ''), 10)`; None is NaN. */
  function SuffixNumber(key: string, prefix: string): Option<int> {
    ParseIntDecimal(ReplaceFirst(key, prefix, ""))
  }

  /** A key's numeric suffix as the comparator reads it. */
  function SuffixOf(prefix: string): string -> Option<int> {
    k => SuffixNumber(k, prefix)
  }

  /** The comparator `numA - numB` says "not after": a NaN difference counts
      as zero, so a key without a number ties with every key. */
  predicate NotAfter(a: string, b: string, num: string -> Option<int>) {
    num(a).None? || num(b).None? || num(a).value <= num(b).value
  }

  /** Stable insertion: `k` goes before the first element it is not after. */
  function Insert(k: string, sorted: seq<string>, num: string -> Option<int>): (r: seq<string>)
    ensures |r| == |sorted| + 1
    ensures multiset(r) == multiset(sorted) + multiset{k}
    ensures forall i :: 0 <= i < |r| ==> r[i] == k || r[i] in sorted
  {
    if sorted == [] then [k]
    else if NotAfter(k, sorted[0], num) then [k] + sorted
    else
      assert sorted == [sorted[0]] + sorted[1..];
      [sorted[0]] + Insert(k, sorted[1..], num)
  }

  /** `keys.sort(comparator)` as a stable sort. When every key has a number
      the comparator is a total order and this is the only stable outcome;
      otherwise it is one of the outcomes an engine may produce. */
  function SortBy(keys: seq<string>, num: string -> Option<int>): (r: seq<string>)
    ensures |r| == |keys|
  {
    if keys == [] then [] else Insert(keys[0], SortBy(keys[1..], num), num)
  }

  /** `keys.sort((a, b) => parseInt(a.replace(prefix, '')) - parseInt(b.replace(prefix, '')))` */
  function SortBySuffix(keys: seq<string>, prefix: string): (r: seq<string>)
    ensures |r| == |keys|
  {
    SortBy(keys, SuffixOf(prefix))
  }

  /** Sorting only reorders. */
  lemma {:induction false} SortIsPermutation(keys: seq<string>, num: string -> Option<int>)
    ensures multiset(SortBy(keys, num)) == multiset(keys)
  {
    if keys != [] {
      SortIsPermutation(keys[1..], num);
      assert keys == [keys[0]] + keys[1..];
    }
  }

  /** Two orderings of the same keys hold the same keys. */
  lemma SameMembers(a: seq<string>, b: seq<string>)
    requires multiset(a) == multiset(b)
    ensures forall k :: k in a <==> k in b
  {
    forall k
      ensures k in a <==> k in b
    {
      assert k in a <==> k in multiset(a);
      assert k in b <==> k in multiset(b);
    }
  }

  predicate AllNumbered(keys: seq<string>, num: string -> Option<int>) {
    forall i :: 0 <= i < |keys| ==> num(keys[i]).Some?
  }

  predicate SortedBy(keys: seq<string>, num: string -> Option<int>)
    requires AllNumbered(keys, num)
  {
    forall i, j :: 0 <= i < j < |keys| ==> num(keys[i]).value <= num(keys[j]).value
  }

  lemma {:induction false} InsertKeepsSorted(k: string, sorted: seq<string>, num: string -> Option<int>)
    requires num(k).Some? && AllNumbered(sorted, num) && SortedBy(sorted, num)
    ensures AllNumbered(Insert(k, sorted, num), num) && SortedBy(Insert(k, sorted, num), num)
  {
    var r := Insert(k, sorted, num);
    if sorted == [] {
      assert r == [k];
    } else if NotAfter(k, sorted[0], num) {
      assert r == [k] + sorted;
      forall i, j | 0 <= i < j < |r|
        ensures num(r[i]).value <= num(r[j]).value
      {
        assert r[j] == sorted[j - 1];
        if i > 0 { assert r[i] == sorted[i - 1]; }
      }
    } else {
      var tail := Insert(k, sorted[1..], num);
      InsertKeepsSorted(k, sorted[1..], num);
      assert r == [sorted[0]] + tail;
      forall i, j | 0 <= i < j < |r|
        ensures num(r[i]).value <= num(r[j]).value
      {
        assert r[j] == tail[j - 1];
        if i > 0 {
          assert r[i] == tail[i - 1];
        } else {
          assert tail[j - 1] == k || tail[j - 1] in sorted[1..];
        }
      }
    }
  }

  /** With a number after every prefix, the keys come out in ascending
      numeric order. */
  lemma {:induction false} SortOrdersNumberedKeys(keys: seq<string>, num: string -> Option<int>)
    requires AllNumbered(keys, num)
    ensures AllNumbered(SortBy(keys, num), num)
    ensures SortedBy(SortBy(keys, num), num)
  {
    if keys != [] {
      SortOrdersNumberedKeys(keys[1..], num);
      InsertKeepsSorted(keys[0], SortBy(keys[1..], num), num);
    }
  }

  /** The keys starting with `prefix`, ordered by the number that follows it:
      exactly those keys, each once. */
  function SortedKeysWithPrefix(e: Entries, prefix: string): (r: seq<string>)
    ensures |r| == |KeysWithPrefix(Keys(e), prefix)|
    ensures multiset(r) == multiset(KeysWithPrefix(Keys(e), prefix))
  {
    var ks := KeysWithPrefix(Keys(e), prefix);
    SortIsPermutation(ks, SuffixOf(prefix));
    SortBySuffix(ks, prefix)
  }

  /** A key is shown exactly when it is one of the object's keys and starts
      with the prefix. */
  lemma SortedKeysMembers(e: Entries, prefix: string)
    ensures forall k :: k in SortedKeysWithPrefix(e, prefix) <==> k in Keys(e) && StartsWith(k, prefix)
  {
    SameMembers(SortedKeysWithPrefix(e, prefix), KeysWithPrefix(Keys(e), prefix));
  }

  /** For a key that starts with the prefix, the suffix is what follows it. */
  lemma SuffixNumberOfPrefixed(prefix: string, suffix: string)
    ensures SuffixNumber(prefix + suffix, prefix) == ParseIntDecimal(suffix)
  {
    assert StartsWith(prefix + suffix, prefix) by {
      assert (prefix + suffix)[..|prefix|] == prefix;
    }
    ReplaceFirstOfPrefix(prefix + suffix, prefix);
    assert (prefix + suffix)[|prefix|..] == suffix;
  }

  /** Numbered keys sort numerically, not by text: `_10` comes after `_2`. */
  lemma TenAfterTwo(prefix: string)
    ensures SortBySuffix([prefix + "10", prefix + "2"], prefix) == [prefix + "2", prefix + "10"]
  {
    var a, b, num := prefix + "10", prefix + "2", SuffixOf(prefix);
    SuffixesTenAndTwo(prefix);
    assert !NotAfter(a, b, num);
    assert [a, b][1..] == [b];
    assert SortBy([b], num) == [b];
    assert Insert(a, [b], num) == [b] + Insert(a, [], num);
  }

  lemma SuffixesTenAndTwo(prefix: string)
    ensures SuffixOf(prefix)(prefix + "10") == Some(10)
    ensures SuffixOf(prefix)(prefix + "2") == Some(2)
  {
    assert NatToString(10) == "10";
    assert NatToString(2) == "2";
    SuffixOfNumbered(prefix, 10);
    SuffixOfNumbered(prefix, 2);
  }

  /** A key made of the prefix and a number's decimal digits reads as that number. */
  lemma SuffixOfNumbered(prefix: string, n: nat)
    ensures SuffixOf(prefix)(prefix + NatToString(n)) == Some(n)
  {
    SuffixNumberOfPrefixed(prefix, NatToString(n));
    ParseNatToString(n);
  }
}
