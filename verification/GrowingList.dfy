/** Walking the job list by offsets while jobs are being added: the list moves on, and nothing older is skipped. */
module GrowingList {
  import opened Prelude
  import opened JobTable
  import opened JobListing

  /** The selection only gained rows, each newer than all it had, and the rows it had keep their place in time. */
  predicate Grows(t: Table, t': Table, q: Query) {
    var was, now := Selection(t, q), Selection(t', q);
    && was <= now
    && (forall id :: id in was ==> t'.rows[id].createdAt == t.rows[id].createdAt)
    && (forall a, b :: a in now && a !in was && b in was ==> Before(t', a, b))
  }

  /** A ranking depends on the creation times only. */
  lemma {:induction false} SameTimesSameRanking(t: Table, t': Table, ids: set<nat>)
    requires ids <= t.rows.Keys && ids <= t'.rows.Keys
    requires forall id :: id in ids ==> t'.rows[id].createdAt == t.rows[id].createdAt
    ensures Ranked(t', ids) == Ranked(t, ids)
    decreases ids
  {
    if ids != {} {
      FirstExists(t, ids);
      var a :| IsFirst(t, ids, a);
      assert IsFirst(t', ids, a);
      FirstIsRanked(t, ids, a);
      FirstIsRanked(t', ids, a);
      SameTimesSameRanking(t, t', ids - {a});
    }
  }

  /** A ranking is its first row and the ranking of the rest. */
  lemma {:induction false} Split(t: Table, ids: set<nat>) returns (a: nat)
    requires ids <= t.rows.Keys && ids != {}
    ensures a in ids && IsFirst(t, ids, a) && Ranked(t, ids) == [a] + Ranked(t, ids - {a})
  {
    FirstExists(t, ids);
    a :| IsFirst(t, ids, a);
    FirstIsRanked(t, ids, a);
  }

  lemma FirstIsNewer(t: Table, was: set<nat>, ids: set<nat>, a: nat)
    requires was < ids <= t.rows.Keys && IsFirst(t, ids, a)
    requires forall x, y :: x in ids && x !in was && y in was ==> Before(t, x, y)
    ensures a !in was
  {
    var b :| b in ids && b !in was;
    assert a in was ==> Before(t, b, a) && Before(t, a, b);
  }

  /** Rows that are newer than `was` come before it in the ranking of both. */
  lemma {:induction false} NewerRowsGoFirst(t: Table, was: set<nat>, ids: set<nat>) returns (newer: seq<nat>)
    requires was <= ids <= t.rows.Keys
    requires forall x, y :: x in ids && x !in was && y in was ==> Before(t, x, y)
    ensures Ranked(t, ids) == newer + Ranked(t, was)
    decreases ids
  {
    if ids == was {
      newer := [];
      Joined([], [], Ranked(t, was));
    } else {
      var a := Split(t, ids);
      FirstIsNewer(t, was, ids, a);
      var rest := NewerRowsGoFirst(t, was, ids - {a});
      newer := [a] + rest;
      Joined([a], rest, Ranked(t, was));
    }
  }

  lemma Joined(a: seq<nat>, b: seq<nat>, c: seq<nat>)
    ensures a + (b + c) == (a + b) + c
    ensures [] + c == c
  {
  }

  ghost function RankedFor(t: Table, q: Query): seq<nat> {
    Ranked(t, Selection(t, q))
  }

  /** `r'` ends with the rows of `r`. */
  predicate EndsWith(r': seq<nat>, r: seq<nat>) {
    |r| <= |r'| && r'[|r'| - |r|..] == r
  }

  /** When the list grows, the rows it had stay together at its end. */
  lemma {:induction false} RowsMoveBack(t: Table, t': Table, q: Query)
    requires Grows(t, t', q)
    ensures EndsWith(RankedFor(t', q), RankedFor(t, q))
  {
    var newer := NewerRowsGoFirst(t', Selection(t, q), Selection(t', q));
    SameTimesSameRanking(t, t', Selection(t, q));
  }

  // ---------------------------------------------------------------- the walk

  /** What a client sees that reads one page after the other, each from the next list, while there is more. */
  function Seen(lists: seq<seq<nat>>, limit: nat, offset: nat): seq<nat>
    requires limit > 0
    decreases |lists|
  {
    if lists == [] then []
    else
      var page := PageOf(lists[0], limit, offset);
      if page.hasMore then page.items + Seen(lists[1..], limit, offset + limit) else page.items
  }

  /** The client goes on until there is no more. */
  predicate ToTheEnd(lists: seq<seq<nat>>, limit: nat, offset: nat)
    requires limit > 0
    decreases |lists|
  {
    lists != [] && (PageOf(lists[0], limit, offset).hasMore ==> ToTheEnd(lists[1..], limit, offset + limit))
  }

  /** A row at or after the offset of a page is on it, or there is more and it is behind the end of the page. */
  lemma {:induction false} OnThePageOrBehind(ranked: seq<nat>, limit: nat, offset: nat, p: nat)
    requires 0 < limit <= MAX_PAGE_LIMIT && offset <= p < |ranked|
    ensures var page := PageOf(ranked, limit, offset);
      ranked[p] in page.items || (page.hasMore && offset + limit <= p)
  {
    PageShows(ranked, limit, offset);
    if p < offset + limit {
      assert ranked[p] == PageOf(ranked, limit, offset).items[p - offset];
    }
  }

  lemma {:induction false} RowsAheadAreSeen(lists: seq<seq<nat>>, limit: nat, offset: nat, p: nat)
    requires 0 < limit <= MAX_PAGE_LIMIT && ToTheEnd(lists, limit, offset) && offset <= p < |lists[0]|
    requires forall k :: 0 <= k < |lists| - 1 ==> EndsWith(lists[k + 1], lists[k])
    ensures lists[0][p] in Seen(lists, limit, offset)
    decreases |lists|
  {
    OnThePageOrBehind(lists[0], limit, offset, p);
    var page := PageOf(lists[0], limit, offset);
    if page.hasMore && lists[0][p] !in page.items {
      assert EndsWith(lists[1], lists[0]);
      var p' := p + |lists[1]| - |lists[0]|;
      assert lists[1][p'] == lists[0][p];
      RowsAheadAreSeen(lists[1..], limit, offset + limit, p');
    }
  }

  /** The list as it is for each page. */
  ghost function Lists(tables: seq<Table>, q: Query): seq<seq<nat>> {
    seq(|tables|, i requires 0 <= i < |tables| => RankedFor(tables[i], q))
  }

  /**
   A client that walks the pages to the end, while newer jobs are added between them, sees every job that was selected
   when it began.
   */
  lemma WalksSkipNothing(tables: seq<Table>, q: Query, limit: nat, id: nat)
    requires 0 < limit <= MAX_PAGE_LIMIT && tables != [] && id in Selection(tables[0], q)
    requires forall k :: 0 <= k < |tables| - 1 ==> Grows(tables[k], tables[k + 1], q)
    requires ToTheEnd(Lists(tables, q), limit, 0)
    ensures id in Seen(Lists(tables, q), limit, 0)
  {
    forall k | 0 <= k < |tables| - 1 ensures EndsWith(Lists(tables, q)[k + 1], Lists(tables, q)[k]) {
      RowsMoveBack(tables[k], tables[k + 1], q);
    }
    assert id in RankedFor(tables[0], q);
    var p: nat :| p < |RankedFor(tables[0], q)| && RankedFor(tables[0], q)[p] == id;
    RowsAheadAreSeen(Lists(tables, q), limit, 0, p);
  }

  // ---------------------------------------------------------------- what makes the list grow

  lemma GrowsOnward(t: Table, t': Table, t'': Table, q: Query)
    requires Grows(t, t', q) && Grows(t', t'', q)
    ensures Grows(t, t'', q)
  {
    forall a, b | a in Selection(t'', q) && a !in Selection(t, q) && b in Selection(t, q) ensures Before(t'', a, b) {
      if a in Selection(t', q) { assert Before(t', a, b); }
    }
  }

  predicate CreatedBy(t: Table, now: Time) {
    forall id :: id in t.rows ==> t.rows[id].createdAt <= now
  }

  /** Creations and transitions, with a clock that does not go back when a job is created. */
  ghost predicate InOrder(t: Table, users: set<nat>, ops: seq<Op>)
    decreases |ops|
  {
    ops == [] ||
    ((ops[0].Submit? ==> CreatedBy(t, ops[0].at)) && InOrder(Step(t, users, ops[0]), users, ops[1..]))
  }

  /** Without a filter on the status, every run of creations and transitions makes the list of a query grow. */
  lemma {:induction false} RunsGrow(t: Table, users: set<nat>, ops: seq<Op>, q: Query)
    requires JobTable.Invariant(t) && InOrder(t, users, ops) && q.status.None?
    ensures Grows(t, Run(t, users, ops), q)
    decreases |ops|
  {
    if ops != [] {
      var t' := Step(t, users, ops[0]);
      StepKeepsInvariant(t, users, ops[0]);
      StepGrows(t, users, ops[0], q);
      RunsGrow(t', users, ops[1..], q);
      GrowsOnward(t, t', Run(t', users, ops[1..]), q);
    }
  }

  lemma StepGrows(t: Table, users: set<nat>, op: Op, q: Query)
    requires JobTable.Invariant(t) && q.status.None? && (op.Submit? ==> CreatedBy(t, op.at))
    ensures Grows(t, Step(t, users, op), q)
  {
    if op.Move? {
      TransitionKeepsInvariant(t, op.id, op.change, op.now);
    }
  }

  // ---------------------------------------------------------------- rows that leave

  function Without(r: seq<nat>, g: nat): seq<nat>
    requires g < |r|
  {
    r[..g] + r[g + 1..]
  }

  lemma WithoutLater(a: nat, rest: seq<nat>, g: nat)
    requires 0 < g <= |rest|
    ensures Without([a] + rest, g) == [a] + Without(rest, g - 1)
  {
  }

  lemma BehindTheGap(r: seq<nat>, g: nat, k: nat)
    requires g < k < |r|
    ensures |Without(r, g)| == |r| - 1 && Without(r, g)[k - 1] == r[k]
  {
  }

  lemma WithoutFirst(a: nat, rest: seq<nat>)
    ensures Without([a] + rest, 0) == rest
  {
  }

  lemma StaysFirst(t: Table, ids: set<nat>, a: nat, gone: nat)
    requires ids <= t.rows.Keys && IsFirst(t, ids, a) && gone != a
    ensures Ranked(t, ids - {gone}) == [a] + Ranked(t, ids - {a} - {gone})
  {
    assert IsFirst(t, ids - {gone}, a);
    FirstIsRanked(t, ids - {gone}, a);
    assert ids - {gone} - {a} == ids - {a} - {gone};
  }

  /** Taking a row out of the selection takes it out of the ranking. */
  lemma {:induction false} RankedWithout(t: Table, ids: set<nat>, g: nat)
    requires ids <= t.rows.Keys && g < |ids|
    ensures Ranked(t, ids)[g] in ids && Ranked(t, ids - {Ranked(t, ids)[g]}) == Without(Ranked(t, ids), g)
    decreases ids
  {
    var a := Split(t, ids);
    var rest := Ranked(t, ids - {a});
    if g == 0 {
      WithoutFirst(a, rest);
    } else {
      RankedWithout(t, ids - {a}, g - 1);
      StaysFirst(t, ids, a, rest[g - 1]);
      WithoutLater(a, rest, g);
    }
  }

  /** No row is in a ranking twice. */
  lemma RankedOnce(t: Table, ids: set<nat>, i: nat, from: nat, to: nat)
    requires ids <= t.rows.Keys && i < |ids| && from <= to <= |ids| && !(from <= i < to)
    ensures Ranked(t, ids)[i] !in Ranked(t, ids)[from..to]
  {
    var r := Ranked(t, ids);
    forall j | from <= j < to ensures r[j] != r[i] {
      if i < j { RankedIsSorted(t, ids, i, j); } else { RankedIsSorted(t, ids, j, i); }
    }
  }

  lemma {:induction false} NextMovesUp(t: Table, t': Table, q: Query, g: nat, k: nat)
    requires g < k < |RankedFor(t, q)| && Selection(t', q) == Selection(t, q) - {RankedFor(t, q)[g]}
    requires forall id :: id in Selection(t', q) ==> t'.rows[id].createdAt == t.rows[id].createdAt
    ensures k <= |RankedFor(t', q)| && RankedFor(t', q)[k - 1] == RankedFor(t, q)[k]
  {
    var ids := Selection(t', q);
    RankedWithout(t, Selection(t, q), g);
    SameTimesSameRanking(t, t', ids);
    assert Ranked(t', ids) == Ranked(t, ids) == Without(RankedFor(t, q), g);
    BehindTheGap(RankedFor(t, q), g, k);
  }

  lemma {:induction false} NotOnPage(t: Table, q: Query, limit: nat, offset: nat, i: nat)
    requires 0 < limit <= MAX_PAGE_LIMIT && i < |RankedFor(t, q)| && !(offset <= i < offset + limit)
    ensures RankedFor(t, q)[i] !in PageOf(RankedFor(t, q), limit, offset).items
  {
    PageShows(RankedFor(t, q), limit, offset);
    if offset < |RankedFor(t, q)| {
      RankedOnce(t, Selection(t, q), i, offset, Min(offset + limit, |RankedFor(t, q)|));
    }
  }

  /**
   It takes a row that leaves the selection, as a filter on the status lets happen, for a walk to skip one: when a row
   of the first page leaves, the row that was next is on no later page.
   */
  lemma {:induction false} LeavingRowsHideOthers(t: Table, t': Table, q: Query, limit: nat, g: nat, offset: nat)
    requires 0 < limit <= MAX_PAGE_LIMIT && g < limit < |RankedFor(t, q)| && limit <= offset
    requires Selection(t', q) == Selection(t, q) - {RankedFor(t, q)[g]}
    requires forall id :: id in Selection(t', q) ==> t'.rows[id].createdAt == t.rows[id].createdAt
    ensures var hidden := RankedFor(t, q)[limit];
      && hidden in Selection(t', q)
      && hidden !in PageOf(RankedFor(t, q), limit, 0).items
      && hidden !in PageOf(RankedFor(t', q), limit, offset).items
  {
    NextMovesUp(t, t', q, g, limit);
    assert RankedFor(t', q)[limit - 1] in RankedFor(t', q);
    NotOnPage(t, q, limit, 0, limit);
    NotOnPage(t', q, limit, offset, limit - 1);
  }
}
