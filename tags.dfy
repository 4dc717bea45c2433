/**
 * Tag lookup (lib/utils.py): AWS resources carry a list of key/value tags, and
 * the processors read their settings from it.
 */
module Tags {
  import opened Wrappers

  datatype Tag = Tag(key: string, value: string)

  /** The tags with the given key, in list order. */
  function Matching(tags: seq<Tag>, key: string): (r: seq<Tag>)
    ensures |r| <= |tags|
    ensures forall i :: 0 <= i < |r| ==> r[i].key == key && r[i] in tags
    ensures forall i :: 0 <= i < |tags| && tags[i].key == key ==> tags[i] in r
    decreases |tags|
  {
    if tags == [] then []
    else (if tags[0].key == key then [tags[0]] else []) + Matching(tags[1..], key)
  }

  /** `get_tag_by_key`: the value of the first tag with the key, None when there is none. */
  function GetTagByKey(tags: seq<Tag>, key: string): Option<string> {
    var found := Matching(tags, key);
    if |found| > 0 then Some(found[0].value) else None
  }

  /** `tags[i]` is the first tag with the key. */
  ghost predicate FirstWithKey(tags: seq<Tag>, key: string, i: int) {
    0 <= i < |tags| && tags[i].key == key && forall j :: 0 <= j < i ==> tags[j].key != key
  }

  // ----- Lemmas -----

  lemma {:induction false} MatchingConcat(a: seq<Tag>, b: seq<Tag>, key: string)
    ensures Matching(a + b, key) == Matching(a, key) + Matching(b, key)
    decreases |a|
  {
    if a == [] {
      assert a + b == b;
    } else {
      assert (a + b)[1..] == a[1..] + b;
      MatchingConcat(a[1..], b, key);
    }
  }

  /** The lookup returns the value of the first tag, in list order, whose key matches. */
  lemma {:induction false} FirstMatchWins(tags: seq<Tag>, key: string, i: int)
    requires FirstWithKey(tags, key, i)
    ensures GetTagByKey(tags, key) == Some(tags[i].value)
    decreases i
  {
    if i > 0 {
      assert tags[0].key != key;
      assert FirstWithKey(tags[1..], key, i - 1);
      FirstMatchWins(tags[1..], key, i - 1);
    }
  }

  /** A value found is the value of the first tag with the key. */
  lemma {:induction false} FoundIsFirst(tags: seq<Tag>, key: string)
    requires GetTagByKey(tags, key).Some?
    ensures exists i :: FirstWithKey(tags, key, i) && tags[i].value == GetTagByKey(tags, key).value
    decreases |tags|
  {
    if tags[0].key == key {
      assert FirstWithKey(tags, key, 0);
    } else {
      assert Matching(tags, key) == Matching(tags[1..], key);
      FoundIsFirst(tags[1..], key);
      var i :| FirstWithKey(tags[1..], key, i) && tags[1..][i].value == GetTagByKey(tags, key).value;
      assert FirstWithKey(tags, key, i + 1);
    }
  }

  /** The lookup gives None exactly when no tag has the key. */
  lemma NoneExactlyWhenAbsent(tags: seq<Tag>, key: string)
    ensures GetTagByKey(tags, key).None? <==> forall i :: 0 <= i < |tags| ==> tags[i].key != key
  {
    if GetTagByKey(tags, key).Some? {
      FoundIsFirst(tags, key);
    }
  }

  /** A tag present with the empty value is found, with the empty value: it is not None. */
  lemma EmptyValueIsPresent(tags: seq<Tag>, key: string, i: int)
    requires FirstWithKey(tags, key, i) && tags[i].value == ""
    ensures GetTagByKey(tags, key) == Some("")
  {
    FirstMatchWins(tags, key, i);
  }

  /** Adding or removing a tag with another key does not change the lookup. */
  lemma OtherKeysIrrelevant(a: seq<Tag>, t: Tag, b: seq<Tag>, key: string)
    requires t.key != key
    ensures GetTagByKey(a + [t] + b, key) == GetTagByKey(a + b, key)
  {
    MatchingConcat(a + [t], b, key);
    MatchingConcat(a, [t], key);
    MatchingConcat(a, b, key);
    assert Matching([t], key) == [];
  }

  /** tests/unit/test_utils.py: `foo` is found, `nope` is not. */
  lemma LookupExample(tags: seq<Tag>)
    requires tags == [Tag("foo", "bar"), Tag("baz", "quux")]
    ensures GetTagByKey(tags, "foo") == Some("bar")
    ensures GetTagByKey(tags, "nope") == None
  {
    assert FirstWithKey(tags, "foo", 0);
    FirstMatchWins(tags, "foo", 0);
    assert tags[0].key != "nope" && tags[1].key != "nope";
    NoneExactlyWhenAbsent(tags, "nope");
  }
}
