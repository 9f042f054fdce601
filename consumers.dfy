/** The "top consumers" part of the failure diagnostic: the per-tag
    allocations of a query, sorted by bytes in descending order, cut to the
    first three, with negative entries dropped (in that order). */
module Consumers {
  import opened Common

  /** How many consumers the diagnostic reports at most. */
  const MAX_REPORTED: nat := 3

  ghost predicate SortedDesc(s: seq<TagBytes>) {
    forall i, j :: 0 <= i < j < |s| ==> s[i].bytes >= s[j].bytes
  }

  /** `entries` lists exactly the (tag, bytes) pairs of `m`, each tag once:
      what iterating over the map's entry set produces, in some order. */
  ghost predicate Enumerates(entries: seq<TagBytes>, m: map<Tag, int>) {
    && (forall e :: e in entries <==> e.tag in m && m[e.tag] == e.bytes)
    && (forall i, j :: 0 <= i < j < |entries| ==> entries[i].tag != entries[j].tag)
  }

  ghost predicate Reports(r: seq<TagBytes>, t: Tag) {
    exists i :: 0 <= i < |r| && r[i].tag == t
  }

  /** What a top-consumers report for the allocation map `m` must be: at most
      three entries of `m`, none negative, tags distinct, largest first; every
      tag left out holds no more than any reported one; and when fewer than
      three are reported, every non-negative allocation is among them. */
  ghost predicate IsTopConsumersOf(r: seq<TagBytes>, m: map<Tag, int>) {
    && |r| <= MAX_REPORTED
    && (forall i :: 0 <= i < |r| ==> r[i].tag in m && m[r[i].tag] == r[i].bytes && r[i].bytes >= 0)
    && (forall i, j :: 0 <= i < j < |r| ==> r[i].tag != r[j].tag)
    && SortedDesc(r)
    && (forall t, i :: t in m && !Reports(r, t) && 0 <= i < |r| ==> m[t] <= r[i].bytes)
    && (|r| < MAX_REPORTED ==> forall t :: t in m && m[t] >= 0 ==> Reports(r, t))
  }

  /** Inserts `x` before the first entry it is no smaller than. */
  function InsertDesc(x: TagBytes, s: seq<TagBytes>): (r: seq<TagBytes>)
    ensures multiset(r) == multiset(s) + multiset{x}
    ensures |r| == |s| + 1
  {
    if s == [] then [x]
    else if x.bytes >= s[0].bytes then [x] + s
    else
      assert s == [s[0]] + s[1..];
      [s[0]] + InsertDesc(x, s[1..])
  }

  /** Insertion keeps a list sorted largest first. */
  lemma {:induction false} InsertDescSorted(x: TagBytes, s: seq<TagBytes>)
    requires SortedDesc(s)
    ensures SortedDesc(InsertDesc(x, s))
    ensures InsertDesc(x, s)[0] == x || (s != [] && InsertDesc(x, s)[0] == s[0])
  {
    if s != [] {
      if x.bytes >= s[0].bytes {
        ConsSorted(x, s);
      } else {
        SortedDescTail(s);
        InsertDescSorted(x, s[1..]);
        var rest := InsertDesc(x, s[1..]);
        assert rest[0] == x || rest[0] == s[1];
        ConsSorted(s[0], rest);
      }
    }
  }

  /** An entry no smaller than the head of a sorted list extends it. */
  lemma ConsSorted(h: TagBytes, s: seq<TagBytes>)
    requires SortedDesc(s)
    requires s != [] ==> h.bytes >= s[0].bytes
    ensures SortedDesc([h] + s)
  {
    var r := [h] + s;
    forall i, j | 0 <= i < j < |r| ensures r[i].bytes >= r[j].bytes {
      if i == 0 {
        assert r[j] == s[j - 1];
        assert j - 1 > 0 ==> s[0].bytes >= s[j - 1].bytes;
      } else {
        assert r[i] == s[i - 1] && r[j] == s[j - 1];
      }
    }
  }

  /** The entries sorted by bytes, largest first; ties in any order. */
  function SortByBytesDesc(s: seq<TagBytes>): (r: seq<TagBytes>)
    ensures SortedDesc(r)
    ensures multiset(r) == multiset(s)
  {
    if s == [] then []
    else
      assert s == [s[0]] + s[1..];
      InsertDescSorted(s[0], SortByBytesDesc(s[1..]));
      InsertDesc(s[0], SortByBytesDesc(s[1..]))
  }

  /** The entries whose bytes are non-negative, in their order. */
  function KeepNonNegative(s: seq<TagBytes>): (r: seq<TagBytes>) {
    if s == [] then []
    else if s[0].bytes >= 0 then [s[0]] + KeepNonNegative(s[1..])
    else KeepNonNegative(s[1..])
  }

  /** The filter keeps exactly the non-negative entries. */
  lemma {:induction false} KeepNonNegativeKeepsExactly(s: seq<TagBytes>)
    ensures forall y :: y in KeepNonNegative(s) <==> y in s && y.bytes >= 0
  {
    if s != [] {
      KeepNonNegativeKeepsExactly(s[1..]);
      assert s == [s[0]] + s[1..];
    }
  }

  /** On a list sorted largest first the non-negative entries come first, so
      the filter keeps a prefix, and the first entry it drops is negative. */
  lemma {:induction false} KeepNonNegativeOfSortedIsPrefix(s: seq<TagBytes>)
    requires SortedDesc(s)
    ensures |KeepNonNegative(s)| <= |s|
    ensures KeepNonNegative(s) == s[..|KeepNonNegative(s)|]
    ensures |KeepNonNegative(s)| < |s| ==> s[|KeepNonNegative(s)|].bytes < 0
  {
    if s != [] {
      if s[0].bytes >= 0 {
        SortedDescTail(s);
        KeepNonNegativeOfSortedIsPrefix(s[1..]);
        var kt := KeepNonNegative(s[1..]);
        assert KeepNonNegative(s) == [s[0]] + kt;
        ConsPrefix(s, kt);
      } else {
        NegativeHeadKeepsNothing(s);
      }
    }
  }

  lemma SortedDescTail(s: seq<TagBytes>)
    requires SortedDesc(s) && s != []
    ensures SortedDesc(s[1..])
  {
    var t := s[1..];
    forall i, j | 0 <= i < j < |t| ensures t[i].bytes >= t[j].bytes {
      assert t[i] == s[i + 1] && t[j] == s[j + 1];
    }
  }

  /** A prefix of the tail, ended by a negative entry, extends by the head
      to a prefix of the whole list, still ended by a negative entry. */
  lemma ConsPrefix(s: seq<TagBytes>, kt: seq<TagBytes>)
    requires s != [] && |kt| <= |s| - 1 && kt == s[1..][..|kt|]
    requires |kt| < |s| - 1 ==> s[1..][|kt|].bytes < 0
    ensures [s[0]] + kt == s[..|kt| + 1]
    ensures |kt| + 1 < |s| ==> s[|kt| + 1].bytes < 0
  {
    assert |kt| + 1 < |s| ==> s[|kt| + 1] == s[1..][|kt|];
  }

  /** A sorted list that starts with a negative entry is all negative. */
  lemma NegativeHeadKeepsNothing(s: seq<TagBytes>)
    requires SortedDesc(s) && s != [] && s[0].bytes < 0
    ensures KeepNonNegative(s) == []
  {
    assert forall i :: 0 <= i < |s| ==> s[i].bytes <= s[0].bytes;
    AllNegativeKeepsNothing(s);
  }

  lemma {:induction false} AllNegativeKeepsNothing(s: seq<TagBytes>)
    requires forall i :: 0 <= i < |s| ==> s[i].bytes < 0
    ensures KeepNonNegative(s) == []
  {
    if s != [] {
      assert forall i :: 0 <= i < |s[1..]| ==> s[1..][i] == s[i + 1];
      AllNegativeKeepsNothing(s[1..]);
    }
  }

  /** The top consumers among `entries` (sort largest first, keep the first three, drop the negative ones). */
  function TopConsumers(entries: seq<TagBytes>): (r: seq<TagBytes>)
    ensures |r| <= MAX_REPORTED
    ensures forall i :: 0 <= i < |r| ==> r[i] in entries && r[i].bytes >= 0
    ensures SortedDesc(r)
    ensures forall e, i :: e in entries && e !in r && 0 <= i < |r| ==> e.bytes <= r[i].bytes
    ensures |r| < MAX_REPORTED ==> forall e :: e in entries && e.bytes >= 0 ==> e in r
    ensures multiset(r) <= multiset(entries)
  {
    var sorted := SortByBytesDesc(entries);
    var limited := sorted[..if |sorted| < MAX_REPORTED then |sorted| else MAX_REPORTED];
    TopConsumersFacts(entries, sorted, limited);
    KeepNonNegative(limited)
  }

  lemma TopConsumersFacts(entries: seq<TagBytes>, sorted: seq<TagBytes>, limited: seq<TagBytes>)
    requires SortedDesc(sorted) && multiset(sorted) == multiset(entries)
    requires limited == sorted[..if |sorted| < MAX_REPORTED then |sorted| else MAX_REPORTED]
    ensures var r := KeepNonNegative(limited);
      && |r| <= MAX_REPORTED
      && (forall i :: 0 <= i < |r| ==> r[i] in entries && r[i].bytes >= 0)
      && SortedDesc(r)
      && (forall e, i :: e in entries && e !in r && 0 <= i < |r| ==> e.bytes <= r[i].bytes)
      && (|r| < MAX_REPORTED ==> forall e :: e in entries && e.bytes >= 0 ==> e in r)
      && multiset(r) <= multiset(entries)
  {
    var r := KeepNonNegative(limited);
    var m := |r|;
    assert
      && m <= MAX_REPORTED && m <= |sorted| && r == sorted[..m]
      && (forall i :: 0 <= i < m ==> sorted[i].bytes >= 0)
      && (m < MAX_REPORTED && m < |sorted| ==> sorted[m].bytes < 0)
    by {
      assert SortedDesc(limited);
      KeepNonNegativeOfSortedIsPrefix(limited);
      KeepNonNegativeKeepsExactly(limited);
      forall i | 0 <= i < m ensures sorted[i].bytes >= 0 {
        assert r[i] in r;
      }
      assert m < MAX_REPORTED && m < |sorted| ==> sorted[m] == limited[m];
    }
    PrefixReport(entries, sorted, m);
  }

  /** The report facts for a prefix of the sorted entries that holds only
      non-negative entries and, when shorter than three, ends at the list's
      end or at a negative entry. */
  lemma PrefixReport(entries: seq<TagBytes>, sorted: seq<TagBytes>, m: nat)
    requires SortedDesc(sorted) && multiset(sorted) == multiset(entries)
    requires m <= MAX_REPORTED && m <= |sorted|
    requires forall i :: 0 <= i < m ==> sorted[i].bytes >= 0
    requires m < MAX_REPORTED && m < |sorted| ==> sorted[m].bytes < 0
    ensures var r := sorted[..m];
      && (forall i :: 0 <= i < |r| ==> r[i] in entries && r[i].bytes >= 0)
      && SortedDesc(r)
      && (forall e, i :: e in entries && e !in r && 0 <= i < |r| ==> e.bytes <= r[i].bytes)
      && (|r| < MAX_REPORTED ==> forall e :: e in entries && e.bytes >= 0 ==> e in r)
      && multiset(r) <= multiset(entries)
  {
    PrefixOfPermutation(entries, sorted, m);
    PrefixOmitsOnlySmaller(entries, sorted, m);
    if m < MAX_REPORTED {
      PrefixHoldsAllNonNegative(entries, sorted, m);
    }
  }

  /** A prefix of a permutation of `entries` draws only on `entries`. */
  lemma PrefixOfPermutation(entries: seq<TagBytes>, sorted: seq<TagBytes>, m: nat)
    requires multiset(sorted) == multiset(entries) && m <= |sorted|
    ensures forall i :: 0 <= i < m ==> sorted[i] in entries
    ensures multiset(sorted[..m]) <= multiset(entries)
  {
    forall i | 0 <= i < m ensures sorted[i] in entries {
      assert sorted[i] in multiset(sorted);
    }
    assert sorted == sorted[..m] + sorted[m..];
  }

  /** Whatever a prefix of the sorted list leaves out is no larger than
      anything in it. */
  lemma PrefixOmitsOnlySmaller(entries: seq<TagBytes>, sorted: seq<TagBytes>, m: nat)
    requires SortedDesc(sorted) && multiset(sorted) == multiset(entries) && m <= |sorted|
    ensures forall e, i :: e in entries && e !in sorted[..m] && 0 <= i < m ==> e.bytes <= sorted[i].bytes
  {
    forall e, i | e in entries && e !in sorted[..m] && 0 <= i < m ensures e.bytes <= sorted[i].bytes {
      assert e in multiset(sorted);
      var j :| 0 <= j < |sorted| && sorted[j] == e;
    }
  }

  /** A prefix of the sorted list that ends at the list's end or at a
      negative entry holds every non-negative entry. */
  lemma PrefixHoldsAllNonNegative(entries: seq<TagBytes>, sorted: seq<TagBytes>, m: nat)
    requires SortedDesc(sorted) && multiset(sorted) == multiset(entries) && m <= |sorted|
    requires m < |sorted| ==> sorted[m].bytes < 0
    ensures forall e :: e in entries && e.bytes >= 0 ==> e in sorted[..m]
  {
    forall e | e in entries && e.bytes >= 0 ensures e in sorted[..m] {
      assert e in multiset(sorted);
      var j :| 0 <= j < |sorted| && sorted[j] == e;
      assert sorted[..m][j] == e;
    }
  }

  /** The report built from an enumeration of `m` meets IsTopConsumersOf. */
  lemma TopConsumersOfEnumeration(entries: seq<TagBytes>, m: map<Tag, int>)
    requires Enumerates(entries, m)
    ensures IsTopConsumersOf(TopConsumers(entries), m)
  {
    var r := TopConsumers(entries);
    ReportTagsDistinct(entries, m, r);
    ReportOmitsSmaller(entries, m, r);
    if |r| < MAX_REPORTED {
      ReportComplete(entries, m, r);
    }
  }

  lemma ReportTagsDistinct(entries: seq<TagBytes>, m: map<Tag, int>, r: seq<TagBytes>)
    requires Enumerates(entries, m)
    requires multiset(r) <= multiset(entries)
    requires forall k :: 0 <= k < |r| ==> r[k] in entries
    ensures forall i, j :: 0 <= i < j < |r| ==> r[i].tag != r[j].tag
  {
    forall i, j | 0 <= i < j < |r| ensures r[i].tag != r[j].tag {
      DistinctInSubMultiset(entries, r, i, j);
    }
  }

  lemma ReportOmitsSmaller(entries: seq<TagBytes>, m: map<Tag, int>, r: seq<TagBytes>)
    requires Enumerates(entries, m)
    requires forall e, i :: e in entries && e !in r && 0 <= i < |r| ==> e.bytes <= r[i].bytes
    ensures forall t, i :: t in m && !Reports(r, t) && 0 <= i < |r| ==> m[t] <= r[i].bytes
  {
    forall t, i | t in m && !Reports(r, t) && 0 <= i < |r| ensures m[t] <= r[i].bytes {
      var e := TagBytes(t, m[t]);
      assert e in entries;
      assert forall k :: 0 <= k < |r| ==> r[k] != e;
    }
  }

  lemma ReportComplete(entries: seq<TagBytes>, m: map<Tag, int>, r: seq<TagBytes>)
    requires Enumerates(entries, m)
    requires forall e :: e in entries && e.bytes >= 0 ==> e in r
    ensures forall t :: t in m && m[t] >= 0 ==> Reports(r, t)
  {
    forall t | t in m && m[t] >= 0 ensures Reports(r, t) {
      var e := TagBytes(t, m[t]);
      assert e in entries;
      var k :| 0 <= k < |r| && r[k] == e;
    }
  }

  /** Two positions of a sub-multiset of an enumeration never share a tag. */
  lemma DistinctInSubMultiset(entries: seq<TagBytes>, r: seq<TagBytes>, i: int, j: int)
    requires forall a, b :: 0 <= a < b < |entries| ==> entries[a].tag != entries[b].tag
    requires multiset(r) <= multiset(entries)
    requires forall k :: 0 <= k < |r| ==> r[k] in entries
    requires forall e1, e2 :: e1 in entries && e2 in entries && e1.tag == e2.tag ==> e1 == e2
    requires 0 <= i < j < |r|
    ensures r[i].tag != r[j].tag
  {
    if r[i].tag == r[j].tag {
      var x := r[i];
      assert r[j] == x;
      assert r == r[..j] + r[j..];
      assert x in r[..j];
      assert x in r[j..];
      assert multiset(r)[x] == multiset(r[..j])[x] + multiset(r[j..])[x];
      assert multiset(entries)[x] >= 2;
      AtMostOnce(entries, x);
    }
  }

  /** In a list whose tags are distinct, every entry occurs at most once. */
  lemma {:induction false} AtMostOnce(entries: seq<TagBytes>, x: TagBytes)
    requires forall a, b :: 0 <= a < b < |entries| ==> entries[a].tag != entries[b].tag
    ensures multiset(entries)[x] <= 1
  {
    if entries != [] {
      var t := entries[1..];
      AtMostOnce(t, x);
      assert entries == [entries[0]] + t;
      if entries[0] == x {
        assert x !in t by {
          forall k | 0 <= k < |t| ensures t[k] != x {
            assert t[k] == entries[k + 1];
          }
        }
      }
    }
  }

  /** The query's tagged allocations as a list: the entries of `m`, each once, in an
      order the map does not promise. */
  method TaggedEntries(m: map<Tag, int>) returns (entries: seq<TagBytes>)
    ensures Enumerates(entries, m)
    ensures |entries| == |m|
  {
    entries := [];
    var rest := m.Keys;
    while rest != {}
      invariant rest <= m.Keys
      invariant forall e :: e in entries <==> e.tag in m.Keys - rest && m[e.tag] == e.bytes
      invariant forall i, j :: 0 <= i < j < |entries| ==> entries[i].tag != entries[j].tag
      invariant forall i :: 0 <= i < |entries| ==> entries[i].tag !in rest
      invariant |entries| + |rest| == |m|
      decreases rest
    {
      var t :| t in rest;
      entries := entries + [TagBytes(t, m[t])];
      rest := rest - {t};
    }
  }
}
