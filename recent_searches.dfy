/**
 * The recent-search list of the home page: most recent first, at most five
 * entries, one per name. A successful search records its place with
 * `[newSearch, ...recentSearches.filter(r => r.name !== name)].slice(0, 5)`.
 */
module RecentSearches {
  import opened WeatherTypes
  import opened JsArrays

  /** How many entries the list keeps. */
  const Capacity: nat := 5

  /** No two entries share a name. */
  ghost predicate DistinctNames(list: seq<Entry>)
  {
    forall i, j :: 0 <= i < j < |list| ==> list[i].name != list[j].name
  }

  /** `a` is `b` with some entries dropped and the others kept in their order. */
  ghost predicate IsSubsequence(a: seq<Entry>, b: seq<Entry>)
    decreases |b|
  {
    a == [] || (b != [] && if a[0] == b[0] then IsSubsequence(a[1..], b[1..]) else IsSubsequence(a, b[1..]))
  }

  /** `list.filter(r => r.name !== name)`. */
  function WithoutName(list: seq<Entry>, name: string): (r: seq<Entry>)
    ensures |r| <= |list|
    ensures forall e :: e in r <==> e in list && e.name != name
    ensures forall e {:trigger multiset(r)[e]} :: multiset(r)[e] == if e.name != name then multiset(list)[e] else 0
  {
    assert list != [] ==> list == [list[0]] + list[1..];
    if list == [] then []
    else if list[0].name != name then [list[0]] + WithoutName(list[1..], name)
    else WithoutName(list[1..], name)
  }

  /** The list after a successful search for `entry`. */
  function Record(recent: seq<Entry>, entry: Entry): (r: seq<Entry>)
    ensures 1 <= |r| <= Capacity
    ensures r[0] == entry
    ensures forall i :: 1 <= i < |r| ==> r[i].name != entry.name && r[i] in recent
  {
    Take([entry] + WithoutName(recent, entry.name), Capacity)
  }

  lemma {:induction false} WithoutNameUnmatched(list: seq<Entry>, name: string)
    requires forall i :: 0 <= i < |list| ==> list[i].name != name
    ensures WithoutName(list, name) == list
  {
    if list != [] {
      WithoutNameUnmatched(list[1..], name);
      assert [list[0]] + list[1..] == list;
    }
  }

  lemma {:induction false} WithoutNameShrinks(list: seq<Entry>, name: string, k: nat)
    requires k < |list| && list[k].name == name
    ensures |WithoutName(list, name)| < |list|
  {
    var rest := WithoutName(list[1..], name);
    assert |rest| <= |list| - 1;
    if k > 0 {
      WithoutNameShrinks(list[1..], name, k - 1);
      assert |WithoutName(list, name)| <= 1 + |rest|;
    } else {
      assert WithoutName(list, name) == rest;
    }
  }

  lemma {:induction false} WithoutNameKeepsOrder(list: seq<Entry>, name: string)
    ensures IsSubsequence(WithoutName(list, name), list)
    decreases |list|
  {
    if list != [] {
      var rest := WithoutName(list[1..], name);
      WithoutNameKeepsOrder(list[1..], name);
      if list[0].name != name {
        assert ([list[0]] + rest)[1..] == rest;
      } else if rest != [] {
        assert rest[0] in rest;
      }
    }
  }

  lemma {:induction false} WithoutNameKeepsDistinct(list: seq<Entry>, name: string)
    requires DistinctNames(list)
    ensures DistinctNames(WithoutName(list, name))
  {
    if list != [] {
      var tail := list[1..];
      assert DistinctNames(tail) by {
        forall i, j | 0 <= i < j < |tail| ensures tail[i].name != tail[j].name {
          assert tail[i] == list[i + 1] && tail[j] == list[j + 1];
        }
      }
      WithoutNameKeepsDistinct(tail, name);
      var rest := WithoutName(tail, name);
      if list[0].name != name {
        forall j | 0 <= j < |rest| ensures rest[j].name != list[0].name {
          assert rest[j] in rest;
          var k :| 0 <= k < |tail| && tail[k] == rest[j];
          assert tail[k] == list[k + 1];
        }
        PrependDistinct(list[0], rest);
      }
    }
  }

  /** Putting an entry with a new name in front of a list with one entry per name keeps that property. */
  lemma PrependDistinct(entry: Entry, rest: seq<Entry>)
    requires DistinctNames(rest)
    requires forall j :: 0 <= j < |rest| ==> rest[j].name != entry.name
    ensures DistinctNames([entry] + rest)
  {
    var r := [entry] + rest;
    forall i, j | 0 <= i < j < |r| ensures r[i].name != r[j].name {
      assert r[j] == rest[j - 1];
      if i > 0 {
        assert r[i] == rest[i - 1];
      }
    }
  }

  /** A prefix of a subsequence is a subsequence. */
  lemma {:induction false} PrefixOfSubsequence(a: seq<Entry>, b: seq<Entry>, k: nat)
    requires IsSubsequence(a, b) && k <= |a|
    ensures IsSubsequence(a[..k], b)
    decreases |b|
  {
    if k > 0 {
      if a[0] == b[0] {
        PrefixOfSubsequence(a[1..], b[1..], k - 1);
        assert a[..k][1..] == a[1..][..k - 1];
      } else {
        PrefixOfSubsequence(a, b[1..], k);
      }
    }
  }

  /** The entries kept from the old list appear in their old order. */
  lemma RecordKeepsOrder(recent: seq<Entry>, entry: Entry)
    ensures IsSubsequence(Record(recent, entry)[1..], recent)
  {
    var w := WithoutName(recent, entry.name);
    var r := Record(recent, entry);
    assert r[1..] == w[..|r| - 1];
    WithoutNameKeepsOrder(recent, entry.name);
    PrefixOfSubsequence(w, recent, |r| - 1);
  }

  /** A list with one entry per name keeps that property. */
  lemma RecordKeepsDistinct(recent: seq<Entry>, entry: Entry)
    requires DistinctNames(recent)
    ensures DistinctNames(Record(recent, entry))
  {
    var w := WithoutName(recent, entry.name);
    WithoutNameKeepsDistinct(recent, entry.name);
    var r := Record(recent, entry);
    forall i, j | 0 <= i < j < |r| ensures r[i].name != r[j].name {
      if i > 0 {
        assert r[i] == w[i - 1] && r[j] == w[j - 1];
      }
    }
  }

  /**
   * Searching a place already listed moves it to the front: on a list within
   * capacity nothing is evicted, every other entry stays, and the list does not grow.
   */
  lemma RecordMovesToFront(recent: seq<Entry>, entry: Entry, k: nat)
    requires |recent| <= Capacity && k < |recent| && recent[k].name == entry.name
    ensures Record(recent, entry) == [entry] + WithoutName(recent, entry.name)
    ensures |Record(recent, entry)| <= |recent|
  {
    WithoutNameShrinks(recent, entry.name, k);
  }

  /** A new name goes in front; when the list was full, its last (oldest) entry is dropped. */
  lemma RecordNewName(recent: seq<Entry>, entry: Entry)
    requires forall i :: 0 <= i < |recent| ==> recent[i].name != entry.name
    ensures |recent| < Capacity ==> Record(recent, entry) == [entry] + recent
    ensures |recent| == Capacity ==> Record(recent, entry) == [entry] + recent[..Capacity - 1]
  {
    WithoutNameUnmatched(recent, entry.name);
  }

  /** While the list has room, every old entry with another name is kept. */
  lemma RecordKeepsOthers(recent: seq<Entry>, entry: Entry)
    requires |recent| < Capacity
    ensures forall e :: e in recent && e.name != entry.name ==> e in Record(recent, entry)
  {
    var w := WithoutName(recent, entry.name);
    assert Record(recent, entry) == [entry] + w;
    forall e | e in recent && e.name != entry.name ensures e in Record(recent, entry) {
      assert e in w;
    }
  }

  /** Recording the same entry twice in a row changes nothing the second time. */
  lemma RecordIdempotent(recent: seq<Entry>, entry: Entry)
    ensures Record(Record(recent, entry), entry) == Record(recent, entry)
  {
    var r := Record(recent, entry);
    WithoutNameUnmatched(r[1..], entry.name);
    assert r == [r[0]] + r[1..];
    assert WithoutName(r, entry.name) == r[1..];
    assert [entry] + r[1..] == r;
  }
}
