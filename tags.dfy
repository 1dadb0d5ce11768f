/** Tags: the key/value labels attached to meters, the two queries of TagsUtil
    (hasKeys, getKeys), and the merge that combines a binder's preset tags with
    the tags extracted from an object name. */
module Tags {

  datatype Tag = Tag(key: string, value: string)

  /** The set of keys carried by a tag sequence. */
  ghost function KeySet(tags: seq<Tag>): set<string>
  {
    set t | t in tags :: t.key
  }

  /** No two tags share a key. */
  ghost predicate DistinctKeys(tags: seq<Tag>)
  {
    forall i, j :: 0 <= i < j < |tags| ==> tags[i].key != tags[j].key
  }

  // ---------------------------------------------------------------------------
  // TagsUtil.getKeys and TagsUtil.hasKeys
  // ---------------------------------------------------------------------------

  /** The keys of the tags, in tag order. */
  function GetKeys(tags: seq<Tag>): (keys: seq<string>)
    ensures |keys| == |tags|
    ensures forall i :: 0 <= i < |tags| ==> keys[i] == tags[i].key
  {
    if tags == [] then [] else [tags[0].key] + GetKeys(tags[1..])
  }

  /** Some tag has key `name` (the inner anyMatch of hasKeys). */
  predicate AnyKeyEquals(tags: seq<Tag>, name: string)
  {
    tags != [] && (tags[0].key == name || AnyKeyEquals(tags[1..], name))
  }

  /** Every requested key is the key of some tag (the outer allMatch of hasKeys). */
  predicate HasKeys(tags: seq<Tag>, keys: seq<string>)
  {
    keys == [] || (AnyKeyEquals(tags, keys[0]) && HasKeys(tags, keys[1..]))
  }

  lemma {:induction false} AnyKeyEqualsIff(tags: seq<Tag>, name: string)
    ensures AnyKeyEquals(tags, name) <==> name in GetKeys(tags)
  {
    if tags != [] {
      AnyKeyEqualsIff(tags[1..], name);
      assert GetKeys(tags) == [tags[0].key] + GetKeys(tags[1..]);
    }
  }

  /** hasKeys holds exactly when every requested key is among getKeys; in
      particular it holds for no keys and fails as soon as one key is absent. */
  lemma {:induction false} HasKeysIff(tags: seq<Tag>, keys: seq<string>)
    ensures HasKeys(tags, keys) <==> forall k :: k in keys ==> k in GetKeys(tags)
  {
    if keys != [] {
      AnyKeyEqualsIff(tags, keys[0]);
      HasKeysIff(tags, keys[1..]);
      assert forall k :: k in keys <==> k == keys[0] || k in keys[1..];
    }
  }

  /** The answer of hasKeys depends only on the set of requested keys, not on
      their order or repetition. */
  lemma HasKeysDependsOnKeySetOnly(tags: seq<Tag>, keys1: seq<string>, keys2: seq<string>)
    requires (set x | x in keys1) == (set x | x in keys2)
    ensures HasKeys(tags, keys1) == HasKeys(tags, keys2)
  {
    HasKeysIff(tags, keys1);
    HasKeysIff(tags, keys2);
    var s1, s2 := set x | x in keys1, set x | x in keys2;
    forall k ensures k in keys1 <==> k in keys2 {
      assert k in keys1 <==> k in s1;
      assert k in keys2 <==> k in s2;
    }
  }

  /** getKeys lists exactly the keys of KeySet. */
  lemma GetKeysSpansKeySet(tags: seq<Tag>)
    ensures forall k :: k in GetKeys(tags) <==> k in KeySet(tags)
  {
    var keys := GetKeys(tags);
    forall k | k in KeySet(tags) ensures k in keys {
      var t :| t in tags && t.key == k;
      var i :| 0 <= i < |tags| && tags[i] == t;
      assert keys[i] == k;
    }
  }

  // ---------------------------------------------------------------------------
  // Key order and key-sorted tag sequences
  // ---------------------------------------------------------------------------

  /** A lexicographic order in the manner of String.compareTo: character by
      character, and a proper prefix before any of its extensions. Java compares
      UTF-16 code units while a Dafny `char` is a Unicode scalar value, so the
      two orders agree on keys within the Basic Multilingual Plane and may differ
      on keys holding supplementary characters. */
  predicate KeyLess(a: string, b: string)
    decreases |a|
  {
    if a == [] then b != []
    else if b == [] then false
    else if a[0] != b[0] then a[0] < b[0]
    else KeyLess(a[1..], b[1..])
  }

  lemma {:induction false} KeyLessIrreflexive(a: string)
    ensures !KeyLess(a, a)
    decreases |a|
  {
    if a != [] {
      KeyLessIrreflexive(a[1..]);
    }
  }

  lemma {:induction false} KeyLessTransitive(a: string, b: string, c: string)
    requires KeyLess(a, b) && KeyLess(b, c)
    ensures KeyLess(a, c)
    decreases |a|
  {
    if a != [] && a[0] == b[0] && b[0] == c[0] {
      KeyLessTransitive(a[1..], b[1..], c[1..]);
    }
  }

  lemma {:induction false} KeyLessTotal(a: string, b: string)
    requires a != b
    ensures KeyLess(a, b) || KeyLess(b, a)
    decreases |a|
  {
    if a != [] && b != [] && a[0] == b[0] {
      assert a == [a[0]] + a[1..] && b == [b[0]] + b[1..];
      KeyLessTotal(a[1..], b[1..]);
    }
  }

  lemma KeyLessAsymmetric(a: string, b: string)
    requires KeyLess(a, b)
    ensures !KeyLess(b, a)
  {
    if KeyLess(b, a) {
      KeyLessTransitive(a, b, a);
      KeyLessIrreflexive(a);
    }
  }

  /** Keys strictly increase along the sequence; this is the order in which a
      Micrometer tag set hands out its tags. */
  ghost predicate Sorted(tags: seq<Tag>)
  {
    forall i, j :: 0 <= i < j < |tags| ==> KeyLess(tags[i].key, tags[j].key)
  }

  lemma SortedHasDistinctKeys(tags: seq<Tag>)
    requires Sorted(tags)
    ensures DistinctKeys(tags)
  {
    forall i, j | 0 <= i < j < |tags| ensures tags[i].key != tags[j].key {
      KeyLessIrreflexive(tags[i].key);
    }
  }

  /** Prepending a tag whose key is below every key of a sorted sequence keeps it sorted. */
  lemma SortedCons(t: Tag, s: seq<Tag>)
    requires Sorted(s)
    requires forall u :: u in s ==> KeyLess(t.key, u.key)
    ensures Sorted([t] + s)
  {
    var r := [t] + s;
    forall i, j | 0 <= i < j < |r| ensures KeyLess(r[i].key, r[j].key) {
      if i == 0 {
        assert r[j] == s[j - 1];
      } else {
        assert r[i] == s[i - 1] && r[j] == s[j - 1];
      }
    }
  }

  /** A key below the head of a sorted sequence is below all of its keys. */
  lemma BelowHeadIsBelowAll(k: string, s: seq<Tag>)
    requires Sorted(s) && s != [] && KeyLess(k, s[0].key)
    ensures forall u :: u in s ==> KeyLess(k, u.key)
  {
    forall u | u in s ensures KeyLess(k, u.key) {
      var j :| 0 <= j < |s| && s[j] == u;
      if j > 0 {
        KeyLessTransitive(k, s[0].key, u.key);
      }
    }
  }

  lemma KeySetCons(t: Tag, s: seq<Tag>)
    ensures KeySet([t] + s) == {t.key} + KeySet(s)
  {
    assert forall u :: u in [t] + s <==> u == t || u in s;
  }

  // ---------------------------------------------------------------------------
  // Tags.concat
  // ---------------------------------------------------------------------------

  /** Adds one tag to a key-sorted sequence; a tag already present under the same
      key is replaced, so the tag added last wins. */
  function Insert(t: Tag, s: seq<Tag>): (r: seq<Tag>)
    requires Sorted(s)
    ensures Sorted(r)
    ensures KeySet(r) == KeySet(s) + {t.key}
    ensures t in r
    ensures forall u :: u in r ==> u == t || u in s
    ensures forall u :: u in s && u.key != t.key ==> u in r
  {
    if s == [] then
      KeySetCons(t, []);
      [t]
    else if t.key == s[0].key then
      ReplaceHead(t, s);
      [t] + s[1..]
    else if KeyLess(t.key, s[0].key) then
      BelowHeadIsBelowAll(t.key, s);
      SortedCons(t, s);
      KeySetCons(t, s);
      [t] + s
    else
      KeyLessTotal(t.key, s[0].key);
      assert Sorted(s[1..]);
      var r' := Insert(t, s[1..]);
      InsertBehindHead(t, s, r');
      [s[0]] + r'
  }

  /** Replacing the head by a tag of the same key keeps the sequence sorted. */
  lemma ReplaceHead(t: Tag, s: seq<Tag>)
    requires Sorted(s) && s != [] && t.key == s[0].key
    ensures Sorted([t] + s[1..])
    ensures KeySet([t] + s[1..]) == KeySet(s) + {t.key}
    ensures forall u :: u in [t] + s[1..] ==> u == t || u in s
    ensures forall u :: u in s && u.key != t.key ==> u in [t] + s[1..]
  {
    assert Sorted(s[1..]);
    assert s == [s[0]] + s[1..];
    KeySetCons(t, s[1..]);
    KeySetCons(s[0], s[1..]);
    if s[1..] != [] {
      assert s[1..][0] == s[1];
      BelowHeadIsBelowAll(t.key, s[1..]);
      SortedCons(t, s[1..]);
    }
  }

  /** A tag that sorts after the head is inserted behind it. */
  lemma InsertBehindHead(t: Tag, s: seq<Tag>, r': seq<Tag>)
    requires Sorted(s) && s != [] && KeyLess(s[0].key, t.key)
    requires Sorted(r') && KeySet(r') == KeySet(s[1..]) + {t.key}
    requires forall u :: u in r' ==> u == t || u in s[1..]
    requires forall u :: u in s[1..] && u.key != t.key ==> u in r'
    ensures Sorted([s[0]] + r')
    ensures KeySet([s[0]] + r') == KeySet(s) + {t.key}
    ensures forall u :: u in [s[0]] + r' ==> u == t || u in s
    ensures forall u :: u in s && u.key != t.key ==> u in [s[0]] + r'
  {
    assert s == [s[0]] + s[1..];
    forall u | u in r' ensures KeyLess(s[0].key, u.key) {
      if u != t {
        var j :| 0 <= j < |s[1..]| && s[1..][j] == u;
        assert s[j + 1] == u;
      }
    }
    SortedCons(s[0], r');
    KeySetCons(s[0], r');
    KeySetCons(s[0], s[1..]);
  }

  lemma DistinctKeysTail(ts: seq<Tag>)
    requires ts != []
    ensures DistinctKeys(ts) ==> DistinctKeys(ts[1..]) && ts[0].key !in KeySet(ts[1..])
  {
    if DistinctKeys(ts) {
      forall u | u in ts[1..] ensures u.key != ts[0].key {
        var j :| 0 <= j < |ts[1..]| && ts[1..][j] == u;
        assert ts[j + 1] == u;
      }
    }
  }

  /** Adds the tags of `ts` one after the other. */
  function InsertAll(acc: seq<Tag>, ts: seq<Tag>): (r: seq<Tag>)
    requires Sorted(acc)
    ensures Sorted(r)
    ensures KeySet(r) == KeySet(acc) + KeySet(ts)
    ensures forall u :: u in r ==> u in acc || u in ts
    ensures forall u :: u in acc && u.key !in KeySet(ts) ==> u in r
    decreases |ts|
  {
    if ts == [] then acc
    else
      var acc' := Insert(ts[0], acc);
      var r := InsertAll(acc', ts[1..]);
      InsertAllStep(acc, ts, acc', r);
      r
  }

  /** One step of InsertAll: what holds of adding `ts[1..]` to `acc` with
      `ts[0]` inserted holds of adding all of `ts` to `acc`. */
  lemma InsertAllStep(acc: seq<Tag>, ts: seq<Tag>, acc': seq<Tag>, r: seq<Tag>)
    requires Sorted(acc) && ts != [] && acc' == Insert(ts[0], acc)
    requires KeySet(r) == KeySet(acc') + KeySet(ts[1..])
    requires forall u :: u in r ==> u in acc' || u in ts[1..]
    requires forall u :: u in acc' && u.key !in KeySet(ts[1..]) ==> u in r
    ensures KeySet(r) == KeySet(acc) + KeySet(ts)
    ensures forall u :: u in r ==> u in acc || u in ts
    ensures forall u :: u in acc && u.key !in KeySet(ts) ==> u in r
  {
    assert ts == [ts[0]] + ts[1..];
    KeySetCons(ts[0], ts[1..]);
    forall u | u in acc && u.key !in KeySet(ts) ensures u in r {
      assert u.key != ts[0].key;
    }
  }

  /** Tags with pairwise distinct keys all survive being added. */
  lemma {:induction false} InsertAllKeepsDistinct(acc: seq<Tag>, ts: seq<Tag>)
    requires Sorted(acc) && DistinctKeys(ts)
    ensures forall u :: u in ts ==> u in InsertAll(acc, ts)
    decreases |ts|
  {
    if ts != [] {
      var acc' := Insert(ts[0], acc);
      var r := InsertAll(acc', ts[1..]);
      assert InsertAll(acc, ts) == r;
      DistinctKeysTail(ts);
      InsertAllKeepsDistinct(acc', ts[1..]);
      assert ts[0] in r;
      forall u | u in ts ensures u in r {
        if u != ts[0] {
          assert u in ts[1..];
        }
      }
    }
  }

  /** Tags.concat(first, second): the union of both, sorted by key, where on a key
      collision the tag from `second` (or the later one within a sequence) wins. */
  function Concat(first: seq<Tag>, second: seq<Tag>): (r: seq<Tag>)
    ensures Sorted(r)
    ensures KeySet(r) == KeySet(first) + KeySet(second)
    ensures forall u :: u in r ==> u in first || u in second
  {
    InsertAll(InsertAll([], first), second)
  }

  /** When no key occurs twice in the two inputs, concat loses no tag. */
  lemma ConcatKeepsDistinctTags(first: seq<Tag>, second: seq<Tag>)
    requires DistinctKeys(first + second)
    ensures forall u :: u in Concat(first, second) <==> u in first || u in second
  {
    var both := first + second;
    assert DistinctKeys(first) by {
      forall i, j | 0 <= i < j < |first| ensures first[i].key != first[j].key {
        assert both[i] == first[i] && both[j] == first[j];
      }
    }
    assert DistinctKeys(second) by {
      forall i, j | 0 <= i < j < |second| ensures second[i].key != second[j].key {
        assert both[|first| + i] == second[i] && both[|first| + j] == second[j];
      }
    }
    var acc := InsertAll([], first);
    InsertAllKeepsDistinct([], first);
    InsertAllKeepsDistinct(acc, second);
    forall u | u in acc ensures u.key !in KeySet(second) {
      assert u in first;
      var i :| 0 <= i < |first| && first[i] == u;
      forall v | v in second ensures v.key != u.key {
        var j :| 0 <= j < |second| && second[j] == v;
        assert both[i] == u && both[|first| + j] == v;
      }
    }
  }

  /** Two key-sorted sequences holding the same tags are equal. */
  lemma {:induction false} SortedUnique(a: seq<Tag>, b: seq<Tag>)
    requires Sorted(a) && Sorted(b)
    requires forall u :: u in a <==> u in b
    ensures a == b
    decreases |a|
  {
    if a != [] {
      assert a[0] in b;
      SortedHeadsAgree(a, b);
      SortedTailsAgree(a, b);
      SortedUnique(a[1..], b[1..]);
      assert a == [a[0]] + a[1..] && b == [b[0]] + b[1..];
    } else {
      HeadIsMember(b);
    }
  }

  /** The first element of a non-empty sequence is one of its elements. */
  lemma HeadIsMember(s: seq<Tag>)
    ensures s != [] ==> s[0] in s
  {
  }

  /** The least tag of two key-sorted sequences holding the same tags is the same. */
  lemma SortedHeadsAgree(a: seq<Tag>, b: seq<Tag>)
    requires Sorted(a) && Sorted(b) && a != [] && b != []
    requires forall u :: u in a <==> u in b
    ensures a[0] == b[0]
  {
    assert b[0] in a && a[0] in b;
    var i :| 0 <= i < |a| && a[i] == b[0];
    var j :| 0 <= j < |b| && b[j] == a[0];
    if j > 0 {
      assert KeyLess(b[0].key, a[0].key);
      if i > 0 {
        KeyLessAsymmetric(a[0].key, a[i].key);
      } else {
        KeyLessIrreflexive(a[0].key);
      }
    }
  }

  /** Past their common head, the two hold the same tags, still sorted. */
  lemma SortedTailsAgree(a: seq<Tag>, b: seq<Tag>)
    requires Sorted(a) && Sorted(b) && a != [] && b != [] && a[0] == b[0]
    requires forall u :: u in a <==> u in b
    ensures Sorted(a[1..]) && Sorted(b[1..])
    ensures forall u :: u in a[1..] <==> u in b[1..]
  {
    SortedHasDistinctKeys(a);
    SortedHasDistinctKeys(b);
    forall k | 0 <= k < |a[1..]| ensures a[1..][k] != a[0] {
      assert a[1..][k] == a[k + 1];
    }
    forall k | 0 <= k < |b[1..]| ensures b[1..][k] != b[0] {
      assert b[1..][k] == b[k + 1];
    }
    assert a == [a[0]] + a[1..] && b == [b[0]] + b[1..];
    assert Sorted(a[1..]) && Sorted(b[1..]);
    forall u ensures u in a[1..] <==> u in b[1..] {
      assert u in a <==> u == a[0] || u in a[1..];
      assert u in b <==> u == b[0] || u in b[1..];
    }
  }

  /** With no key collision, the order of the two arguments of concat does not
      matter: concat(preset, extracted) == concat(extracted, preset). */
  lemma ConcatSymmetric(first: seq<Tag>, second: seq<Tag>)
    requires DistinctKeys(first + second)
    ensures Concat(first, second) == Concat(second, first)
  {
    assert DistinctKeys(second + first) by {
      var both := first + second;
      var rev := second + first;
      forall i, j | 0 <= i < j < |rev| ensures rev[i].key != rev[j].key {
        var i' := if i < |second| then |first| + i else i - |second|;
        var j' := if j < |second| then |first| + j else j - |second|;
        assert rev[i] == both[i'] && rev[j] == both[j'];
      }
    }
    ConcatKeepsDistinctTags(first, second);
    ConcatKeepsDistinctTags(second, first);
    SortedUnique(Concat(first, second), Concat(second, first));
  }

  /** With no key collision, concat is the one key-sorted arrangement of the
      tags of both arguments. */
  lemma ConcatIsSortedUnion(first: seq<Tag>, second: seq<Tag>, sorted: seq<Tag>)
    requires DistinctKeys(first + second)
    requires Sorted(sorted)
    requires forall u :: u in sorted <==> u in first || u in second
    ensures Concat(first, second) == sorted
  {
    ConcatKeepsDistinctTags(first, second);
    SortedUnique(Concat(first, second), sorted);
  }
}
