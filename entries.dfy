/** The records of the local `recent_sessions` cache and the pure
    operations popup.js applies to that list. */
module Entries {
  import opened Wrappers
  import opened Lists

  /** One cached record. Records that a capture puts in the cache carry
      `title` (the captured text) and no `content`; records that a sync
      fetches carry `content` and no `title`. */
  datatype Entry = Entry(
    id: string,
    title: Option<string>,
    content: Option<string>,
    note: Option<string>,
    group: Option<string>,
    category: Option<string>,
    timestamp: int)

  /** JavaScript truthiness of an optional string: present and not "". */
  predicate Truthy(o: Option<string>) {
    o.Some? && o.value != ""
  }

  /** The two suggestion lists: `saved_groups` and `saved_categories`. */
  datatype Suggestion = Groups | Categories

  /** The field of an entry a suggestion list is drawn from. */
  function Tag(e: Entry, kind: Suggestion): Option<string> {
    if kind == Groups then e.group else e.category
  }

  /** The truthy tags of `es`, in list order: what the `if (d.group)` /
      `if (d.category)` tests of the sync loop let through. */
  function TruthyTags(es: seq<Entry>, kind: Suggestion): (r: seq<string>)
    ensures forall v :: v in r <==> exists k :: 0 <= k < |es| && Tag(es[k], kind) == Some(v) && v != ""
  {
    if es == [] then []
    else
      var t := Tag(es[|es| - 1], kind);
      var init := es[..|es| - 1];
      assert forall k :: 0 <= k < |init| ==> init[k] == es[k];
      TruthyTags(init, kind) + (if Truthy(t) then [t.value] else [])
  }

  lemma TruthyTagsSnoc(es: seq<Entry>, e: Entry, kind: Suggestion)
    ensures TruthyTags(es + [e], kind) ==
      TruthyTags(es, kind) + (if Truthy(Tag(e, kind)) then [Tag(e, kind).value] else [])
  {
    assert (es + [e])[..|es|] == es;
  }

  // ---------------------------------------------------------------------
  // Newest-first order (performSync's `sort((a, b) => b.timestamp - a.timestamp)`)

  predicate NewestFirst(s: seq<Entry>) {
    forall i, j :: 0 <= i < j < |s| ==> s[i].timestamp >= s[j].timestamp
  }

  /** An entry no older than every element of a newest-first list can go in
      front of it. */
  lemma PrependNewest(h: Entry, rest: seq<Entry>)
    requires NewestFirst(rest)
    requires forall x :: x in rest ==> x.timestamp <= h.timestamp
    ensures NewestFirst([h] + rest)
  {
    var r := [h] + rest;
    forall i, j | 0 <= i < j < |r| ensures r[i].timestamp >= r[j].timestamp {
      assert r[j] == rest[j - 1];
      if i > 0 { assert r[i] == rest[i - 1]; } else { assert rest[j - 1] in rest; }
    }
  }

  /** Inserts `e` ahead of the first entry that is not newer than it. */
  function InsertByTime(e: Entry, s: seq<Entry>): seq<Entry> {
    if s == [] || s[0].timestamp <= e.timestamp then [e] + s
    else [s[0]] + InsertByTime(e, s[1..])
  }

  /** Insertion adds exactly `e`. */
  lemma {:induction false} InsertByTimeCount(e: Entry, s: seq<Entry>)
    ensures multiset(InsertByTime(e, s)) == multiset(s) + multiset{e}
  {
    if !(s == [] || s[0].timestamp <= e.timestamp) {
      assert s == [s[0]] + s[1..];
      InsertByTimeCount(e, s[1..]);
    }
  }

  /** Whatever is in the result is `e` or was in the list. */
  lemma {:induction false} InsertByTimeMembers(e: Entry, s: seq<Entry>)
    ensures forall x :: x in InsertByTime(e, s) <==> x == e || x in s
  {
    if !(s == [] || s[0].timestamp <= e.timestamp) {
      assert s == [s[0]] + s[1..];
      InsertByTimeMembers(e, s[1..]);
    }
  }

  /** Insertion into a newest-first list keeps it newest-first. */
  lemma {:induction false} InsertByTimeSorted(e: Entry, s: seq<Entry>)
    requires NewestFirst(s)
    ensures NewestFirst(InsertByTime(e, s))
  {
    if s == [] || s[0].timestamp <= e.timestamp {
      PrependNewest(e, s);
    } else {
      var tail := s[1..];
      var rest := InsertByTime(e, tail);
      InsertByTimeSorted(e, tail);
      InsertByTimeMembers(e, tail);
      forall x | x in rest ensures x.timestamp <= s[0].timestamp {
        if x != e {
          var k :| 0 <= k < |tail| && tail[k] == x;
          assert s[k + 1] == x;
        }
      }
      PrependNewest(s[0], rest);
    }
  }

  /** A stable sort by descending timestamp (JavaScript's `sort` is stable):
      a rearrangement of the input, newest first. */
  function SortNewestFirst(s: seq<Entry>): (r: seq<Entry>)
    ensures NewestFirst(r)
    ensures multiset(r) == multiset(s)
    ensures |r| == |s|
  {
    if s == [] then []
    else
      var sorted := SortNewestFirst(s[1..]);
      assert s == [s[0]] + s[1..];
      InsertByTimeSorted(s[0], sorted);
      InsertByTimeCount(s[0], sorted);
      InsertByTime(s[0], sorted)
  }

  /** Sorting a list that is already newest-first changes nothing, so sorting
      is idempotent. */
  lemma {:induction false} SortKeepsSorted(s: seq<Entry>)
    requires NewestFirst(s)
    ensures SortNewestFirst(s) == s
  {
    if s != [] {
      assert NewestFirst(s[1..]);
      SortKeepsSorted(s[1..]);
      assert s == [s[0]] + s[1..];
    }
  }

  lemma SortIdempotent(s: seq<Entry>)
    ensures SortNewestFirst(SortNewestFirst(s)) == SortNewestFirst(s)
  {
    SortKeepsSorted(SortNewestFirst(s));
  }

  /** Selects the entries stamped with time `t`. */
  function AtTime(t: int): Entry -> bool {
    (e: Entry) => e.timestamp == t
  }

  /** Insertion puts `e` ahead of every entry with the same timestamp. */
  lemma {:induction false} InsertByTimeTies(e: Entry, s: seq<Entry>, t: int)
    ensures Filter(InsertByTime(e, s), AtTime(t)) ==
      Filter([e], AtTime(t)) + Filter(s, AtTime(t))
  {
    var p := AtTime(t);
    if s == [] || s[0].timestamp <= e.timestamp {
      assert InsertByTime(e, s) == [e] + s;
      FilterConcat([e], s, p);
    } else {
      var rest := InsertByTime(e, s[1..]);
      var he, h0, tail := Filter([e], p), Filter([s[0]], p), Filter(s[1..], p);
      assert InsertByTime(e, s) == [s[0]] + rest;
      FilterOne(e, p);
      FilterOne(s[0], p);
      calc {
        Filter([s[0]] + rest, p);
        { FilterConcat([s[0]], rest, p); }
        h0 + Filter(rest, p);
        { InsertByTimeTies(e, s[1..], t); }
        h0 + (he + tail);
        { OneSideEmpty(he, h0, tail); }
        he + (h0 + tail);
        { FilterCons(s, p); }
        he + Filter(s, p);
      }
    }
  }

  lemma OneSideEmpty<T>(a: seq<T>, b: seq<T>, c: seq<T>)
    requires a == [] || b == []
    ensures b + (a + c) == a + (b + c)
  {
  }

  /** The sort is stable: the entries that share a timestamp come out in the
      order they went in. */
  lemma {:induction false} SortIsStable(s: seq<Entry>, t: int)
    ensures Filter(SortNewestFirst(s), AtTime(t)) == Filter(s, AtTime(t))
  {
    if s != [] {
      var p := AtTime(t);
      var sorted := SortNewestFirst(s[1..]);
      assert SortNewestFirst(s) == InsertByTime(s[0], sorted);
      calc {
        Filter(InsertByTime(s[0], sorted), p);
        { InsertByTimeTies(s[0], sorted, t); }
        Filter([s[0]], p) + Filter(sorted, p);
        { SortIsStable(s[1..], t); }
        Filter([s[0]], p) + Filter(s[1..], p);
        { FilterCons(s, p); }
        Filter(s, p);
      }
    }
  }

  // ---------------------------------------------------------------------
  // Lookup and removal by id

  /** `s.findIndex(x => x.id === id)`: the first index holding `id`, or -1. */
  function FirstIndexOf(s: seq<Entry>, id: string): (r: int)
    ensures -1 <= r < |s|
    ensures r == -1 <==> forall k :: 0 <= k < |s| ==> s[k].id != id
    ensures 0 <= r ==> s[r].id == id && forall k :: 0 <= k < r ==> s[k].id != id
  {
    if s == [] then -1
    else if s[0].id == id then 0
    else
      var i := FirstIndexOf(s[1..], id);
      if i == -1 then -1 else i + 1
  }

  /** The test `removeSessionLocal` filters with. */
  function OtherId(id: string): Entry -> bool {
    (e: Entry) => e.id != id
  }

  /** `sessions.filter(s => s.id !== id)`: no entry with `id` is left, and
      every other entry is kept as often as it occurred. */
  function RemoveById(s: seq<Entry>, id: string): (r: seq<Entry>)
    ensures forall k :: 0 <= k < |r| ==> r[k].id != id
    ensures forall e: Entry :: e.id != id ==> multiset(r)[e] == multiset(s)[e]
    ensures FirstIndexOf(s, id) == -1 ==> r == s
  {
    var r := Filter(s, OtherId(id));
    assert forall k :: 0 <= k < |r| ==> OtherId(id)(r[k]) by {
      forall k | 0 <= k < |r| ensures OtherId(id)(r[k]) { assert r[k] in r; }
    }
    assert FirstIndexOf(s, id) == -1 ==> r == s by {
      if FirstIndexOf(s, id) == -1 { FilterAllKept(s, OtherId(id)); }
    }
    r
  }

  lemma {:induction false} FilterAllKept(s: seq<Entry>, keep: Entry -> bool)
    requires forall k :: 0 <= k < |s| ==> keep(s[k])
    ensures Filter(s, keep) == s
  {
    if s != [] {
      FilterAllKept(s[1..], keep);
    }
  }

  /** Removal keeps the surviving entries in their original order. */
  lemma RemoveByIdKeepsOrder(a: seq<Entry>, b: seq<Entry>, id: string)
    ensures RemoveById(a + b, id) == RemoveById(a, id) + RemoveById(b, id)
  {
    FilterConcat(a, b, OtherId(id));
  }

  // ---------------------------------------------------------------------
  // The context-list filter (renderContextList)

  /** A filter value of "all" lets every entry through; otherwise the
      entry's field must be exactly that value. */
  predicate MatchesFilter(e: Entry, group: string, category: string): (r: bool)
    ensures group == "all" && category == "all" ==> r
    ensures r && group != "all" ==> e.group == Some(group)
    ensures r && category != "all" ==> e.category == Some(category)
  {
    && (group == "all" || e.group == Some(group))
    && (category == "all" || e.category == Some(category))
  }

  function Matcher(group: string, category: string): Entry -> bool {
    (e: Entry) => MatchesFilter(e, group, category)
  }

  /** The entries the context list shows for the two filter selections. */
  function VisibleContexts(s: seq<Entry>, group: string, category: string): (r: seq<Entry>)
    ensures forall e: Entry :: e in r <==> e in s && MatchesFilter(e, group, category)
    ensures forall e: Entry :: MatchesFilter(e, group, category) ==> multiset(r)[e] == multiset(s)[e]
  {
    Filter(s, Matcher(group, category))
  }

  /** With both filters at "all" the whole cache is shown, in order. */
  lemma AllFiltersShowEverything(s: seq<Entry>)
    ensures VisibleContexts(s, "all", "all") == s
  {
    FilterAllKept(s, Matcher("all", "all"));
  }

  // ---------------------------------------------------------------------
  // Cache updates made by a successful capture

  /** `e` and `f` agree on every field except `group` and `category`. */
  predicate SameButTags(e: Entry, f: Entry) {
    e.id == f.id && e.title == f.title && e.content == f.content
    && e.note == f.note && e.timestamp == f.timestamp
  }

  /** `sessions[index].group = group; sessions[index].category = category`
      for the first entry whose id is `ref`, when there is one. */
  function RetagReply(s: seq<Entry>, ref: string, group: string, category: string): (r: seq<Entry>)
    ensures |r| == |s|
    ensures forall k :: 0 <= k < |s| ==> SameButTags(r[k], s[k])
    ensures forall k :: 0 <= k < |s| && k != FirstIndexOf(s, ref) ==> r[k] == s[k]
    ensures FirstIndexOf(s, ref) != -1 ==>
      var i := FirstIndexOf(s, ref);
      r[i].group == Some(group) && r[i].category == Some(category)
  {
    var index := FirstIndexOf(s, ref);
    if index == -1 then s
    else s[index := s[index].(group := Some(group), category := Some(category))]
  }

  /** The size the capture path trims the cache to. */
  const CacheLimit: nat := 20

  /** The capture path's cap: a cache longer than twenty entries is cut to
      its first twenty. */
  function CapCache(s: seq<Entry>): (r: seq<Entry>)
    ensures |r| <= CacheLimit && |r| <= |s|
    ensures r == s[..|r|]
    ensures |s| <= CacheLimit ==> r == s
    ensures |s| > CacheLimit ==> |r| == CacheLimit
  {
    if |s| > CacheLimit then s[..CacheLimit] else s
  }
}
