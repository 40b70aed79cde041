/** The paginated, newest-first list of a user's jobs. */
module JobListing {
  import opened Prelude
  import opened JobTable
  import JobStore

  const MAX_PAGE_LIMIT := 100

  datatype Query = Query(userId: int, jobId: Option<int>, status: Option<Status>, pipelineType: Option<string>)

  datatype Page = Page(items: seq<nat>, hasMore: bool)

  predicate ValidQuery(q: Query) {
    && q.userId > 0
    && (q.jobId.Some? ==> q.jobId.value > 0)
    && (q.pipelineType.Some? ==> q.pipelineType.value in {"copy_analysis", "copy_adaptation"})
  }

  predicate Selected(q: Query, id: nat, job: Job) {
    && job.request.userId == q.userId
    && (q.jobId.Some? ==> id == q.jobId.value)
    && (q.status.Some? ==> job.status == q.status.value)
    && (q.pipelineType.Some? ==> job.request.pipelineType == q.pipelineType.value)
  }

  function Selection(t: Table, q: Query): set<nat> {
    set id | id in t.rows && Selected(q, id, t.rows[id])
  }

  /** `created_at DESC, id DESC`. */
  predicate NewerFirst(rows: map<nat, Job>, a: nat, b: nat)
    requires a in rows && b in rows
  {
    rows[a].createdAt > rows[b].createdAt || (rows[a].createdAt == rows[b].createdAt && a > b)
  }

  predicate Before(t: Table, a: nat, b: nat)
    requires a in t.rows && b in t.rows
  {
    NewerFirst(t.rows, a, b)
  }

  predicate IsFirst(t: Table, ids: set<nat>, a: nat)
    requires ids <= t.rows.Keys
  {
    a in ids && forall b :: b in ids && b != a ==> Before(t, a, b)
  }

  lemma {:induction false} FirstExists(t: Table, ids: set<nat>)
    requires ids <= t.rows.Keys && ids != {}
    ensures exists a :: IsFirst(t, ids, a)
    decreases ids
  {
    var x :| x in ids;
    var rest := ids - {x};
    assert forall b :: b in ids && b != x ==> b in rest;
    if rest == {} {
      assert IsFirst(t, ids, x);
    } else {
      FirstExists(t, rest);
      var a :| IsFirst(t, rest, a);
      assert IsFirst(t, ids, if Before(t, x, a) then x else a);
    }
  }

  /** The rows in the order of the query. */
  ghost function Ranked(t: Table, ids: set<nat>): (r: seq<nat>)
    requires ids <= t.rows.Keys
    ensures |r| == |ids| && forall id :: id in r <==> id in ids
    decreases ids
  {
    if ids == {} then []
    else
      FirstExists(t, ids);
      var a :| IsFirst(t, ids, a);
      [a] + Ranked(t, ids - {a})
  }

  lemma {:induction false} RankedIsSorted(t: Table, ids: set<nat>, i: nat, j: nat)
    requires ids <= t.rows.Keys && i < j < |ids|
    ensures var r := Ranked(t, ids); r[i] in ids && r[j] in ids && r[i] != r[j] && Before(t, r[i], r[j])
    decreases ids
  {
    var r := Ranked(t, ids);
    assert r[i] in r && r[j] in r;
    FirstExists(t, ids);
    var rest := ids - {r[0]};
    assert r == [r[0]] + Ranked(t, rest);
    if i == 0 {
      assert r[j] == Ranked(t, rest)[j - 1] && r[j] in Ranked(t, rest);
    } else {
      RankedIsSorted(t, rest, i - 1, j - 1);
    }
  }

  /** One page of a ranking, fetched with one row more than the limit. */
  function PageOf(ranked: seq<nat>, limit: nat, offset: nat): Page
    requires limit > 0
  {
    var normalized := Min(limit, MAX_PAGE_LIMIT);
    var from := Min(offset, |ranked|);
    var rows := ranked[from..Min(from + normalized + 1, |ranked|)];
    Page(rows[..Min(normalized, |rows|)], |rows| > normalized)
  }

  /** `list_user_jobs`; `None` is a JobStoreError. */
  ghost function ListUserJobs(t: Table, q: Query, limit: int, offset: int): Option<Page> {
    if !ValidQuery(q) || limit <= 0 || offset < 0 then None
    else Some(PageOf(Ranked(t, Selection(t, q)), limit, offset))
  }

  lemma PageShows(ranked: seq<nat>, limit: nat, offset: nat)
    requires limit > 0
    ensures var n := Min(limit, MAX_PAGE_LIMIT);
      var page := PageOf(ranked, limit, offset);
      && page.items == (if offset < |ranked| then ranked[offset..Min(offset + n, |ranked|)] else [])
      && (page.hasMore <==> offset + n < |ranked|)
  {
  }

  // ---------------------------------------------------------------- walking the pages

  /** Everything a client sees that asks for one page after the other, `limit` apart, while there is more. */
  function Walked(ranked: seq<nat>, limit: nat, offset: nat): seq<nat>
    requires limit > 0
    decreases |ranked| - offset
  {
    var page := PageOf(ranked, limit, offset);
    if page.hasMore && offset < |ranked| then page.items + Walked(ranked, limit, offset + limit) else page.items
  }

  lemma Rejoined(s: seq<nat>, a: nat, b: nat)
    requires a <= b <= |s|
    ensures s[a..b] + s[b..] == s[a..]
  {
  }

  lemma {:induction false} ShortPagesCover(ranked: seq<nat>, limit: nat, offset: nat)
    requires 0 < limit <= MAX_PAGE_LIMIT && offset <= |ranked|
    ensures Walked(ranked, limit, offset) == ranked[offset..]
    decreases |ranked| - offset
  {
    PageShows(ranked, limit, offset);
    if offset + limit < |ranked| {
      ShortPagesCover(ranked, limit, offset + limit);
      Rejoined(ranked, offset, offset + limit);
    }
  }

  lemma {:induction false} LongStepsSkip(ranked: seq<nat>, limit: nat, offset: nat)
    requires limit > MAX_PAGE_LIMIT
    ensures offset <= |ranked| ==> |Walked(ranked, limit, offset)| <= |ranked| - offset
    ensures offset + MAX_PAGE_LIMIT < |ranked| ==> |Walked(ranked, limit, offset)| < |ranked| - offset
    ensures offset >= |ranked| ==> Walked(ranked, limit, offset) == []
    decreases |ranked| - offset
  {
    PageShows(ranked, limit, offset);
    if offset + MAX_PAGE_LIMIT < |ranked| {
      LongStepsSkip(ranked, limit, offset + limit);
    }
  }

  /**
   Walking the pages shows every job once, newest first, exactly when the client steps by what a page can hold: with a
   limit of at most 100, or when everything fits on the first page.
   */
  lemma WalkIsCompleteExactly(t: Table, q: Query, limit: nat)
    requires limit > 0
    ensures var ranked := Ranked(t, Selection(t, q));
      Walked(ranked, limit, 0) == ranked <==> limit <= MAX_PAGE_LIMIT || |Selection(t, q)| <= MAX_PAGE_LIMIT
  {
    var ranked := Ranked(t, Selection(t, q));
    if limit <= MAX_PAGE_LIMIT {
      ShortPagesCover(ranked, limit, 0);
      assert ranked[0..] == ranked;
    } else {
      LongStepsSkip(ranked, limit, 0);
      PageShows(ranked, limit, 0);
      assert ranked[0..|ranked|] == ranked;
    }
  }

  /** The page is the slice of the ranking from `offset` on, of at most `limit` and at most 100 rows. */
  predicate IsSlice(page: Page, ranked: seq<nat>, limit: int, offset: int) {
    && |page.items| <= Min(limit, MAX_PAGE_LIMIT)
    && (forall i :: 0 <= i < |page.items| ==> 0 <= offset + i < |ranked| && page.items[i] == ranked[offset + i])
    && (page.hasMore <==> offset + |page.items| < |ranked|)
    && (offset < |ranked| ==> page.items != [])
  }

  lemma PageIsSlice(ranked: seq<nat>, limit: nat, offset: nat)
    requires limit > 0
    ensures IsSlice(PageOf(ranked, limit, offset), ranked, limit, offset)
  {
    PageShows(ranked, limit, offset);
  }

  /** A query is refused exactly for bad arguments; otherwise the answer is the next slice of the ranking. */
  lemma ListExactly(t: Table, q: Query, limit: int, offset: int)
    ensures ListUserJobs(t, q, limit, offset).None? <==> !ValidQuery(q) || limit <= 0 || offset < 0
    ensures ListUserJobs(t, q, limit, offset).Some? ==>
              IsSlice(ListUserJobs(t, q, limit, offset).value, Ranked(t, Selection(t, q)), limit, offset)
  {
    if limit > 0 && offset >= 0 {
      PageIsSlice(Ranked(t, Selection(t, q)), limit, offset);
    }
  }

  lemma SliceElement(page: Page, ranked: seq<nat>, limit: int, offset: int, i: nat)
    requires IsSlice(page, ranked, limit, offset) && i < |page.items|
    ensures i < limit && 0 <= offset + i < |ranked| && page.items[i] == ranked[offset + i]
  {
    var id := page.items[i];
  }

  /** Every page holds only jobs of the asking user that pass the filters, newest first, and no job is on two pages. */
  lemma PagesAreApart(t: Table, q: Query, limit: int, a: int, b: int, pa: Page, pb: Page, i: nat, j: nat)
    requires ListUserJobs(t, q, limit, a) == Some(pa) && ListUserJobs(t, q, limit, b) == Some(pb)
    requires a + limit <= b && i < |pa.items| && j < |pb.items|
    ensures var x, y := pa.items[i], pb.items[j];
      && x in t.rows && Selected(q, x, t.rows[x]) && y in t.rows && Selected(q, y, t.rows[y])
      && x != y && Before(t, x, y)
  {
    ListExactly(t, q, limit, a);
    ListExactly(t, q, limit, b);
    var ids := Selection(t, q);
    SliceElement(pa, Ranked(t, ids), limit, a, i);
    SliceElement(pb, Ranked(t, ids), limit, b, j);
    RankedIsSorted(t, ids, a + i, b + j);
  }

  /** Adding the next page to what has been seen so far: all that is left, or `limit` more of it. */
  lemma NextPage(ranked: seq<nat>, limit: nat, seen: nat)
    requires 0 < limit <= MAX_PAGE_LIMIT && seen <= |ranked|
    ensures var page := PageOf(ranked, limit, seen);
      && ranked[..seen] + page.items == ranked[..Min(seen + limit, |ranked|)]
      && (page.hasMore <==> seen + limit < |ranked|)
  {
  }

  lemma FirstIsRanked(t: Table, ids: set<nat>, a: nat)
    requires ids <= t.rows.Keys && IsFirst(t, ids, a)
    ensures Ranked(t, ids) == [a] + Ranked(t, ids - {a})
  {
    var first := Ranked(t, ids)[0];
    FirstExists(t, ids);
    assert IsFirst(t, ids, first);
    assert first == a;
  }

  /** The row that comes first. */
  method FirstRow(rows: map<nat, Job>, ids: set<nat>, ghost t: Table) returns (a: nat)
    requires t.rows == rows && ids <= rows.Keys && ids != {}
    ensures IsFirst(t, ids, a)
  {
    FirstExists(t, ids);
    ghost var first :| IsFirst(t, ids, first);
    assert first in ids && forall b :: b in ids && b != first ==> NewerFirst(rows, first, b);
    a :| a in ids && forall b :: b in ids && b != a ==> NewerFirst(rows, a, b);
  }

  lemma Moved(done: seq<nat>, a: nat, rest: seq<nat>, all: seq<nat>)
    requires done + ([a] + rest) == all
    ensures (done + [a]) + rest == all
  {
  }

  /** ORDER BY: the first row first, then the rest. */
  method OrderRows(rows: map<nat, Job>, ids: set<nat>, ghost t: Table) returns (ranked: seq<nat>)
    requires t.rows == rows && ids <= rows.Keys
    ensures ranked == Ranked(t, ids)
  {
    var left := ids;
    ranked := [];
    while left != {}
      invariant left <= rows.Keys
      invariant ranked + Ranked(t, left) == Ranked(t, ids)
      decreases |left|
    {
      var a := FirstRow(rows, left, t);
      FirstIsRanked(t, left, a);
      Moved(ranked, a, Ranked(t, left - {a}), Ranked(t, ids));
      ranked := ranked + [a];
      left := left - {a};
    }
  }

  /** LIMIT and OFFSET: one row more than the limit is fetched, to tell whether there is more. */
  method FetchPage(ranked: seq<nat>, limit: nat, offset: nat) returns (page: Page)
    requires limit > 0
    ensures page == PageOf(ranked, limit, offset)
  {
    var normalized := if limit < MAX_PAGE_LIMIT then limit else MAX_PAGE_LIMIT;
    var rows := if offset < |ranked| then ranked[offset..] else [];
    if |rows| > normalized + 1 {
      rows := rows[..normalized + 1];
    }
    page := Page(if |rows| > normalized then rows[..normalized] else rows, |rows| > normalized);
    PageShows(ranked, limit, offset);
    assert page.items == PageOf(ranked, limit, offset).items;
  }

  /** `list_user_jobs`; `None` is a JobStoreError. */
  method ListPage(store: JobStore.Store, q: Query, limit: int, offset: int) returns (r: Option<Page>)
    ensures r == ListUserJobs(store.State(), q, limit, offset)
  {
    if !ValidQuery(q) || limit <= 0 || offset < 0 {
      return None;
    }
    var ids := set id | id in store.rows && Selected(q, id, store.rows[id]);
    assert ids == Selection(store.State(), q);
    var ranked := OrderRows(store.rows, ids, store.State());
    var page := FetchPage(ranked, limit, offset);
    return Some(page);
  }

  /** A client that asks for page after page while there is more, of a table that does not change meanwhile. */
  method WalkPages(store: JobStore.Store, q: Query, limit: nat) returns (all: seq<nat>)
    requires ValidQuery(q) && 0 < limit <= MAX_PAGE_LIMIT
    ensures all == Ranked(store.State(), Selection(store.State(), q))
    ensures forall id :: id in all <==> id in store.rows && Selected(q, id, store.rows[id])
  {
    ghost var ranked := Ranked(store.State(), Selection(store.State(), q));
    all := [];
    var offset, more := 0, true;
    while more
      invariant offset <= |ranked| || !more
      invariant all == ranked[..Min(offset, |ranked|)] && (!more ==> offset >= |ranked|)
      decreases if more then |ranked| - offset + 1 else 0
    {
      NextPage(ranked, limit, offset);
      var page := ListPage(store, q, limit, offset);
      all := all + page.value.items;
      more := page.value.hasMore;
      offset := offset + limit;
    }
    assert ranked[..|ranked|] == ranked;
  }

  /** What is listed, column by column: the user's own jobs that pass every filter that is set, each at its place. */
  lemma ListsExactly(t: Table, q: Query, id: nat)
    ensures id in Ranked(t, Selection(t, q)) <==>
      && id in t.rows && t.rows[id].request.userId == q.userId
      && (q.jobId == None || q.jobId == Some(id))
      && (q.status == None || q.status == Some(t.rows[id].status))
      && (q.pipelineType == None || q.pipelineType == Some(t.rows[id].request.pipelineType))
  {
  }

  /** The order of the list: later creation first, and the larger id first among those created at the same time. */
  lemma ListsNewestFirst(t: Table, q: Query, i: nat, j: nat)
    requires i < j < |Ranked(t, Selection(t, q))|
    ensures var r := Ranked(t, Selection(t, q));
      && r[i] in t.rows && r[j] in t.rows
      && t.rows[r[i]].createdAt >= t.rows[r[j]].createdAt
      && (t.rows[r[i]].createdAt == t.rows[r[j]].createdAt ==> r[i] > r[j])
  {
    RankedIsSorted(t, Selection(t, q), i, j);
  }
}
