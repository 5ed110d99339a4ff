/**
 * Sorting a copy of a track list by one key, as `[...tracks].sort(cmp)`
 * does: the result is ordered by the key, holds the same tracks, and keeps
 * the input order among tracks whose keys are equal (the sort is stable).
 */
module Sorting {
  import opened Catalog
  import Lists

  // ---------------------------------------------------------------------------
  // The order on strings: lexicographic by code point

  /** `a` comes no later than `b`: the order `localeCompare` is modelled by. */
  predicate StrLeq(a: string, b: string) {
    a == [] || (b != [] && (a[0] < b[0] || (a[0] == b[0] && StrLeq(a[1..], b[1..]))))
  }

  lemma {:induction false} StrLeqTotal(a: string, b: string)
    ensures StrLeq(a, b) || StrLeq(b, a)
  {
    if a != [] && b != [] && a[0] == b[0] {
      StrLeqTotal(a[1..], b[1..]);
    }
  }

  lemma {:induction false} StrLeqTransitive(a: string, b: string, c: string)
    requires StrLeq(a, b) && StrLeq(b, c)
    ensures StrLeq(a, c)
  {
    if a != [] && b != [] && c != [] && a[0] == b[0] == c[0] {
      StrLeqTransitive(a[1..], b[1..], c[1..]);
    }
  }

  // ---------------------------------------------------------------------------
  // Sort keys

  /** What the tracks are ordered by: their name, their label, or their duration. */
  datatype SortKey = ByName | ByLabel | ByDuration

  /** The duration a track sorts by; a track without one sorts as 0 seconds. */
  function DurationOf(t: Track): int {
    t.duration.GetOr(0)
  }

  /** `a` may come before `b` when sorting by `key`. */
  predicate KeyLeq(key: SortKey, a: Track, b: Track) {
    match key
    case ByName => StrLeq(a.trackName, b.trackName)
    case ByLabel => StrLeq(a.trackLabel, b.trackLabel)
    case ByDuration => DurationOf(a) <= DurationOf(b)
  }

  /** `a` and `b` have equal keys. */
  predicate SameKey(key: SortKey, a: Track, b: Track) {
    KeyLeq(key, a, b) && KeyLeq(key, b, a)
  }

  lemma KeyLeqTotal(key: SortKey, a: Track, b: Track)
    ensures KeyLeq(key, a, b) || KeyLeq(key, b, a)
  {
    match key
    case ByName => StrLeqTotal(a.trackName, b.trackName);
    case ByLabel => StrLeqTotal(a.trackLabel, b.trackLabel);
    case ByDuration =>
  }

  lemma KeyLeqTransitive(key: SortKey, a: Track, b: Track, c: Track)
    requires KeyLeq(key, a, b) && KeyLeq(key, b, c)
    ensures KeyLeq(key, a, c)
  {
    match key
    case ByName => StrLeqTransitive(a.trackName, b.trackName, c.trackName);
    case ByLabel => StrLeqTransitive(a.trackLabel, b.trackLabel, c.trackLabel);
    case ByDuration =>
  }

  predicate Sorted(key: SortKey, s: seq<Track>) {
    forall i, j :: 0 <= i < j < |s| ==> KeyLeq(key, s[i], s[j])
  }

  // ---------------------------------------------------------------------------
  // Stable insertion sort

  /** `x` may come before every track of `s`. */
  predicate LeqAll(key: SortKey, x: Track, s: seq<Track>) {
    forall j :: 0 <= j < |s| ==> KeyLeq(key, x, s[j])
  }

  /** A track that may precede the head of a sorted list may precede all of it. */
  lemma LeqHeadLeqAll(key: SortKey, x: Track, s: seq<Track>)
    requires Sorted(key, s) && s != [] && KeyLeq(key, x, s[0])
    ensures LeqAll(key, x, s)
  {
    forall j | 1 <= j < |s| ensures KeyLeq(key, x, s[j]) {
      KeyLeqTransitive(key, x, s[0], s[j]);
    }
  }

  /** What may precede every track of a list may precede every track of a permutation of it. */
  lemma LeqAllPermutation(key: SortKey, x: Track, a: seq<Track>, b: seq<Track>)
    requires multiset(a) == multiset(b) && LeqAll(key, x, b)
    ensures LeqAll(key, x, a)
  {
    forall j | 0 <= j < |a| ensures KeyLeq(key, x, a[j]) {
      assert a[j] in multiset(b);
    }
  }

  /** A sorted list is a head that may precede its tail, and a sorted tail. */
  lemma SortedSplit(key: SortKey, s: seq<Track>)
    requires Sorted(key, s) && s != []
    ensures Sorted(key, s[1..]) && LeqAll(key, s[0], s[1..])
  {
  }

  lemma SortedCons(key: SortKey, x: Track, s: seq<Track>)
    requires Sorted(key, s) && LeqAll(key, x, s)
    ensures Sorted(key, [x] + s)
  {
    var r := [x] + s;
    forall i, j | 0 <= i < j < |r| ensures KeyLeq(key, r[i], r[j]) {
      if i > 0 {
        assert r[i] == s[i - 1] && r[j] == s[j - 1];
      } else {
        assert r[j] == s[j - 1];
      }
    }
  }

  /** Puts `x` in front of the first track whose key is not below `x`'s. */
  function Insert(key: SortKey, x: Track, s: seq<Track>): (r: seq<Track>)
    ensures multiset(r) == multiset(s) + multiset{x}
  {
    if s == [] then [x]
    else if KeyLeq(key, x, s[0]) then [x] + s
    else
      assert s == [s[0]] + s[1..];
      [s[0]] + Insert(key, x, s[1..])
  }

  /** Inserting into a sorted list keeps it sorted. */
  lemma {:induction false} InsertSorted(key: SortKey, x: Track, s: seq<Track>)
    requires Sorted(key, s)
    ensures Sorted(key, Insert(key, x, s))
  {
    if s == [] {
    } else if KeyLeq(key, x, s[0]) {
      LeqHeadLeqAll(key, x, s);
      SortedCons(key, x, s);
    } else {
      var rest := Insert(key, x, s[1..]);
      SortedSplit(key, s);
      InsertSorted(key, x, s[1..]);
      KeyLeqTotal(key, x, s[0]);
      var b := s[1..] + [x];
      assert LeqAll(key, s[0], b) by {
        forall j | 0 <= j < |b| ensures KeyLeq(key, s[0], b[j]) {
          if j < |s| - 1 { assert b[j] == s[1..][j]; }
        }
      }
      LeqAllPermutation(key, s[0], rest, b);
      SortedCons(key, s[0], rest);
    }
  }

  /** The tracks of `s` ordered by `key`, equal keys in their original order. */
  function SortBy(key: SortKey, s: seq<Track>): (r: seq<Track>)
    ensures multiset(r) == multiset(s)
    ensures Sorted(key, r)
  {
    if s == [] then []
    else
      assert s == [s[0]] + s[1..];
      var sorted := SortBy(key, s[1..]);
      InsertSorted(key, s[0], sorted);
      Insert(key, s[0], sorted)
  }

  // ---------------------------------------------------------------------------
  // Stability

  /** The tracks of `s` whose key equals that of `t`, in their order in `s`. */
  function KeyRun(key: SortKey, s: seq<Track>, t: Track): seq<Track> {
    Lists.Filter(s, (u: Track) => SameKey(key, u, t))
  }

  /** Inserting `x` adds it at the front of its key's run and moves no other track of any run. */
  lemma {:induction false} InsertKeepsRuns(key: SortKey, x: Track, s: seq<Track>, t: Track)
    ensures KeyRun(key, Insert(key, x, s), t)
            == (if SameKey(key, x, t) then [x] else []) + KeyRun(key, s, t)
  {
    var p := (u: Track) => SameKey(key, u, t);
    if s == [] {
    } else if KeyLeq(key, x, s[0]) {
      Lists.FilterAppend([x], s, p);
    } else {
      InsertKeepsRuns(key, x, s[1..], t);
      Lists.FilterAppend([s[0]], Insert(key, x, s[1..]), p);
      Lists.FilterAppend([s[0]], s[1..], p);
      assert s == [s[0]] + s[1..];
      // s[0] sorts strictly before x, so at most one of them shares t's key
      if SameKey(key, x, t) && SameKey(key, s[0], t) {
        KeyLeqTransitive(key, x, t, s[0]);
        assert false;
      }
    }
  }

  /** Sorting is stable: every run of equal keys keeps its input order. */
  lemma {:induction false} SortByIsStable(key: SortKey, s: seq<Track>, t: Track)
    ensures KeyRun(key, SortBy(key, s), t) == KeyRun(key, s, t)
  {
    if s != [] {
      SortByIsStable(key, s[1..], t);
      InsertKeepsRuns(key, s[0], SortBy(key, s[1..]), t);
      Lists.FilterAppend([s[0]], s[1..], (u: Track) => SameKey(key, u, t));
      assert s == [s[0]] + s[1..];
    }
  }
}
