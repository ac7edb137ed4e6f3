/** The two ways a list is cut into pages: looking one element ahead, and counting. */
module Pagination {
  import opened Types
  import opened AnalysisTable

  datatype Page<T> = Page(items: seq<T>, hasNext: bool)

  /** What a query with `skip` and `limit` returns. */
  function Slice<T>(list: seq<T>, skip: nat, limit: nat): (rows: seq<T>)
    ensures |rows| <= limit
  {
    if skip >= |list| then []
    else if |list| - skip <= limit then list[skip..]
    else list[skip..skip + limit]
  }

  /** Fetch one row more than the page holds; it is there exactly when there is a next page. */
  function LookAheadPage<T>(list: seq<T>, limit: nat, page: nat): Page<T>
    requires limit >= 1 && page >= 1
  {
    var rows := Slice(list, (page - 1) * limit, limit + 1);
    Page(if |rows| <= limit then rows else rows[..limit], |rows| > limit)
  }

  /** Fetch the page and count the whole list. */
  function CountedPage<T>(list: seq<T>, limit: nat, page: nat): Page<T>
    requires limit >= 1 && page >= 1
  {
    Page(Slice(list, (page - 1) * limit, limit), |list| > limit * page)
  }

  /** Both ways give the same page of the same list. */
  lemma PagesAgree<T>(list: seq<T>, limit: nat, page: nat)
    requires limit >= 1 && page >= 1
    ensures LookAheadPage(list, limit, page) == CountedPage(list, limit, page)
  {
    assert (page - 1) * limit + limit == limit * page;
  }

  /** Page k holds the elements at the positions from (k - 1) * limit up to k * limit, as far as there are any. */
  lemma PageIsWindow<T>(list: seq<T>, limit: nat, page: nat)
    requires limit >= 1 && page >= 1
    ensures var p := CountedPage(list, limit, page); var skip := (page - 1) * limit;
      && (p.hasNext <==> skip + limit < |list|)
      && |p.items| == (if skip + limit <= |list| then limit else if skip <= |list| then |list| - skip else 0)
      && forall i :: 0 <= i < |p.items| ==> p.items[i] == list[skip + i]
  {
    assert (page - 1) * limit + limit == limit * page;
  }

  /** A client that follows the pages from `page` on until there is no next one. */
  function Follow<T>(list: seq<T>, limit: nat, page: nat): seq<T>
    requires limit >= 1 && page >= 1
    decreases |list| - limit * page
  {
    var current := CountedPage(list, limit, page);
    if current.hasNext then
      assert limit * (page + 1) == limit * page + limit;
      current.items + Follow(list, limit, page + 1)
    else current.items
  }

  lemma {:induction false} FollowFrom<T>(list: seq<T>, limit: nat, page: nat)
    requires limit >= 1 && page >= 1 && (page - 1) * limit <= |list|
    ensures Follow(list, limit, page) == list[(page - 1) * limit..]
    decreases |list| - limit * page
  {
    var skip := (page - 1) * limit;
    assert skip + limit == limit * page;
    if |list| > limit * page {
      assert limit * (page + 1) == limit * page + limit;
      FollowFrom(list, limit, page + 1);
      assert list[skip..skip + limit] + list[skip + limit..] == list[skip..];
    }
  }

  /** Following the pages from the first one yields every element once, in order. */
  lemma FollowYieldsAll<T>(list: seq<T>, limit: nat)
    requires limit >= 1
    ensures Follow(list, limit, 1) == list
  {
    FollowFrom(list, limit, 1);
    assert list[0..] == list;
  }

  /** The analyses of a document, newest first; an empty filter lets everything through. */
  function Matching(newestFirst: seq<Analysis>, doc: nat, statuses: set<AnalysisStatus>, providers: set<Provider>): seq<Analysis> {
    if newestFirst == [] then [] else
    var a := newestFirst[0];
    var rest := Matching(newestFirst[1..], doc, statuses, providers);
    if a.doc == doc && (statuses == {} || a.status in statuses) && (providers == {} || a.provider in providers)
    then [a] + rest else rest
  }

  /** The filter keeps the order. */
  lemma {:induction false} MatchingKeepsOrder(newestFirst: seq<Analysis>, doc: nat, statuses: set<AnalysisStatus>,
                                              providers: set<Provider>) returns (at: seq<nat>)
    ensures var shown := Matching(newestFirst, doc, statuses, providers);
      && |at| == |shown| && (forall i, j :: 0 <= i < j < |at| ==> at[i] < at[j])
      && forall i :: 0 <= i < |at| ==> at[i] < |newestFirst| && shown[i] == newestFirst[at[i]]
  {
    at := [];
    if newestFirst != [] {
      var rest := MatchingKeepsOrder(newestFirst[1..], doc, statuses, providers);
      var later := seq(|rest|, i requires 0 <= i < |rest| => rest[i] + 1);
      at := if |rest| == |Matching(newestFirst, doc, statuses, providers)| then later else [0] + later;
    }
  }

  /** Filtering and paging together: all pages show the matching analyses once each, and nothing else. */
  lemma {:induction false} PagesShowMatching(newestFirst: seq<Analysis>, doc: nat, statuses: set<AnalysisStatus>,
                                             providers: set<Provider>, limit: nat, a: Analysis)
    requires limit >= 1
    ensures var shown := Follow(Matching(newestFirst, doc, statuses, providers), limit, 1);
      multiset(shown)[a] == if a.doc == doc && (statuses == {} || a.status in statuses) && (providers == {} || a.provider in providers)
                            then multiset(newestFirst)[a] else 0
  {
    FollowYieldsAll(Matching(newestFirst, doc, statuses, providers), limit);
    MatchingCounts(newestFirst, doc, statuses, providers, a);
  }

  lemma {:induction false} MatchingCounts(newestFirst: seq<Analysis>, doc: nat, statuses: set<AnalysisStatus>,
                                          providers: set<Provider>, a: Analysis)
    ensures multiset(Matching(newestFirst, doc, statuses, providers))[a] ==
      if a.doc == doc && (statuses == {} || a.status in statuses) && (providers == {} || a.provider in providers)
      then multiset(newestFirst)[a] else 0
  {
    if newestFirst != [] {
      assert newestFirst == [newestFirst[0]] + newestFirst[1..];
      MatchingCounts(newestFirst[1..], doc, statuses, providers, a);
    }
  }
}
