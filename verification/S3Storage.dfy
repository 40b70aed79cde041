/** Deleting everything under a prefix of a bucket, page by page and in batches of at most a thousand keys. */
module S3Storage {
  import opened Prelude
  import opened StoragePaths
  import Decimal

  const MAX_DELETE_OBJECTS := 1000

  predicate ValidKey(key: string) {
    key != "" && key[0] != '/' && ".." !in Parts(key)
  }

  function ResolvedPrefix(prefix: string): string
    requires prefix != ""
  {
    if prefix[|prefix| - 1] == '/' then prefix else prefix + "/"
  }

  function ChunkCount(n: nat): nat {
    (n + MAX_DELETE_OBJECTS - 1) / MAX_DELETE_OBJECTS
  }

  function Chunk(objects: seq<string>, i: nat): seq<string>
    requires i < ChunkCount(|objects|)
  {
    objects[i * MAX_DELETE_OBJECTS..Min((i + 1) * MAX_DELETE_OBJECTS, |objects|)]
  }

  function ChunkObjects(objects: seq<string>): seq<seq<string>> {
    seq(ChunkCount(|objects|), i requires 0 <= i < ChunkCount(|objects|) => Chunk(objects, i))
  }

  function Flatten(batches: seq<seq<string>>): seq<string>
    decreases |batches|
  {
    if batches == [] then [] else Flatten(batches[..|batches| - 1]) + batches[|batches| - 1]
  }

  lemma {:induction false} ChunksCoverPrefix(objects: seq<string>, k: nat)
    requires k <= ChunkCount(|objects|)
    ensures Flatten(ChunkObjects(objects)[..k]) == objects[..Min(k * MAX_DELETE_OBJECTS, |objects|)]
    decreases k
  {
    if k > 0 {
      ChunksCoverPrefix(objects, k - 1);
      var chunks := ChunkObjects(objects)[..k];
      assert chunks[..k - 1] == ChunkObjects(objects)[..k - 1];
      assert chunks[k - 1] == Chunk(objects, k - 1);
      var cut := (k - 1) * MAX_DELETE_OBJECTS;
      assert objects[..cut] + Chunk(objects, k - 1) == objects[..Min(k * MAX_DELETE_OBJECTS, |objects|)];
    }
  }

  /** The batches of a page are its keys in order, each batch of one to a thousand keys. */
  lemma ChunksPartition(objects: seq<string>)
    ensures Flatten(ChunkObjects(objects)) == objects
    ensures forall i :: 0 <= i < |ChunkObjects(objects)| ==> 1 <= |ChunkObjects(objects)[i]| <= MAX_DELETE_OBJECTS
  {
    var n := ChunkCount(|objects|);
    ChunksCoverPrefix(objects, n);
    assert ChunkObjects(objects)[..n] == ChunkObjects(objects);
    assert objects[..|objects|] == objects;
  }

  /** All batches of a listing. */
  function Batches(pages: seq<seq<string>>): seq<seq<string>>
    decreases |pages|
  {
    if pages == [] then [] else Batches(pages[..|pages| - 1]) + ChunkObjects(pages[|pages| - 1])
  }

  lemma {:induction false} FlattenAdds(a: seq<seq<string>>, b: seq<seq<string>>)
    ensures Flatten(a + b) == Flatten(a) + Flatten(b)
    decreases |b|
  {
    if b == [] {
      assert a + b == a;
    } else {
      var last := |a + b| - 1;
      assert (a + b)[..last] == a + b[..|b| - 1] && (a + b)[last] == b[|b| - 1];
      FlattenAdds(a, b[..|b| - 1]);
    }
  }

  /** The batches concatenate to the listing. */
  lemma {:induction false} BatchesPartition(pages: seq<seq<string>>)
    ensures Flatten(Batches(pages)) == Flatten(pages)
    ensures forall i :: 0 <= i < |Batches(pages)| ==> 1 <= |Batches(pages)[i]| <= MAX_DELETE_OBJECTS
    decreases |pages|
  {
    if pages != [] {
      BatchesPartition(pages[..|pages| - 1]);
      ChunksPartition(pages[|pages| - 1]);
      FlattenAdds(Batches(pages[..|pages| - 1]), ChunkObjects(pages[|pages| - 1]));
    }
  }

  /**
   How the service answers one batch: the keys it reports as not deleted, or an error of the whole call. `arriving` are
   the keys others write in the meantime, before the batch is deleted.
   */
  datatype Reply = Reply(refused: set<string>, raises: bool, arriving: set<string>)

  predicate Clean(batch: seq<string>, reply: Reply) {
    !reply.raises && forall i :: 0 <= i < |batch| ==> batch[i] !in reply.refused
  }

  function Deleted(objects: set<string>, batch: seq<string>, reply: Reply): set<string> {
    set key | key in objects + reply.arriving && !(key in batch && key !in reply.refused)
  }

  function Without(objects: set<string>, prefix: string): set<string> {
    set key | key in objects && !(prefix <= key)
  }

  /** `pages` list keys under a prefix only, and all that were there to begin with. */
  ghost predicate Lists(pages: seq<seq<string>>, objects: set<string>, prefix: string) {
    && (forall key :: key in Flatten(pages) ==> prefix <= key)
    && (forall key :: key in objects && prefix <= key ==> key in Flatten(pages))
  }

  /** Everything others wrote. */
  function Arrived(replies: seq<Reply>): set<string>
    decreases |replies|
  {
    if replies == [] then {} else Arrived(replies[..|replies| - 1]) + replies[|replies| - 1].arriving
  }

  lemma {:induction false} ArrivedAdds(a: seq<Reply>, b: seq<Reply>)
    ensures Arrived(a + b) == Arrived(a) + Arrived(b)
    decreases |b|
  {
    if b == [] {
      assert a + b == a;
    } else {
      var last := |a + b| - 1;
      assert (a + b)[..last] == a + b[..|b| - 1] && (a + b)[last] == b[|b| - 1];
      ArrivedAdds(a, b[..|b| - 1]);
    }
  }

  /** Only keys that were sent are gone, and only keys that were there or arrived are left. */
  predicate Spared(was: set<string>, now: set<string>, sent: seq<seq<string>>, arrived: set<string>) {
    && now <= was + arrived
    && forall key :: key in was + arrived && key !in Flatten(sent) ==> key in now
  }

  /** Besides, every key that was sent is gone, unless it was written again. */
  predicate Cleared(was: set<string>, now: set<string>, sent: seq<seq<string>>, arrived: set<string>) {
    Spared(was, now, sent, arrived) && forall key :: key in now && key in Flatten(sent) ==> key in arrived
  }

  lemma SparedOnward(
    a: set<string>, b: set<string>, c: set<string>, first: seq<seq<string>>, second: seq<seq<string>>,
    arrived: set<string>, later: set<string>)
    requires Spared(a, b, first, arrived) && Spared(b, c, second, later)
    ensures Spared(a, c, first + second, arrived + later)
    ensures Cleared(a, b, first, arrived) && Cleared(b, c, second, later) ==>
      Cleared(a, c, first + second, arrived + later)
  {
    FlattenAdds(first, second);
  }

  lemma OneBatch(was: set<string>, batch: seq<string>, reply: Reply)
    ensures Spared(was, Deleted(was, batch, reply), [batch], reply.arriving)
    ensures Clean(batch, reply) ==> Cleared(was, Deleted(was, batch, reply), [batch], reply.arriving)
  {
    assert [batch][..0] == [];
    assert Flatten([batch]) == batch;
  }

  /** Under the prefix only keys that arrived are left, and all of them that were not listed; the rest is untouched. */
  ghost predicate Emptied(
    was: set<string>, now: set<string>, pages: seq<seq<string>>, prefix: string, arrived: set<string>)
  {
    && (forall key :: key in now && prefix <= key ==> key in arrived)
    && (forall key :: key in arrived && key !in Flatten(pages) ==> key in now)
    && (forall key :: !(prefix <= key) ==> (key in now <==> key in was + arrived))
  }

  lemma ListedIsEverything(
    was: set<string>, now: set<string>, pages: seq<seq<string>>, prefix: string, arrived: set<string>)
    requires Lists(pages, was, prefix) && Cleared(was, now, Batches(pages), arrived)
    ensures Emptied(was, now, pages, prefix, arrived)
    ensures arrived == {} ==> now == Without(was, prefix)
  {
    BatchesPartition(pages);
  }

  lemma SentIsListed(pages: seq<seq<string>>, sent: seq<seq<string>>)
    requires sent <= Batches(pages)
    ensures forall key :: key in Flatten(sent) ==> key in Flatten(pages)
  {
    var all := Batches(pages);
    assert all == sent + all[|sent|..];
    FlattenAdds(sent, all[|sent|..]);
    BatchesPartition(pages);
  }

  lemma ArrivedSoFar(replies: seq<Reply>, n: nat)
    requires n <= |replies|
    ensures Arrived(replies[..n]) <= Arrived(replies)
  {
    assert replies == replies[..n] + replies[n..];
    ArrivedAdds(replies[..n], replies[n..]);
  }

  lemma OnlyListedGone(
    was: set<string>, now: set<string>, pages: seq<seq<string>>, sent: seq<seq<string>>, prefix: string,
    replies: seq<Reply>)
    requires Lists(pages, was, prefix) && sent <= Batches(pages) && |sent| <= |replies|
    requires Spared(was, now, sent, Arrived(replies[..|sent|]))
    ensures now <= was + Arrived(replies)
    ensures forall key :: key in was && key !in now ==> prefix <= key
  {
    SentIsListed(pages, sent);
    ArrivedSoFar(replies, |sent|);
  }

  class Bucket {
    var objects: set<string>

    constructor (objects: set<string>)
      ensures this.objects == objects
    {
      this.objects := objects;
    }

    /** `client.delete_objects`: reports the keys it could not delete, or raises. */
    method DeleteObjects(batch: seq<string>, reply: Reply) returns (ok: bool)
      modifies this
      ensures objects == Deleted(old(objects), batch, reply) && (ok <==> Clean(batch, reply))
    {
      objects := Deleted(objects, batch, reply);
      return !reply.raises && !exists i :: 0 <= i < |batch| && batch[i] in reply.refused;
    }

    /** The inner loop: the batches of one page, up to the first that fails. `n` are issued. */
    method DeletePage(batches: seq<seq<string>>, replies: seq<Reply>) returns (ok: bool, n: nat)
      requires |replies| == |batches|
      modifies this
      ensures n <= |batches| && (ok <==> AllClean(batches, replies, |batches|))
      ensures Spared(old(objects), objects, batches[..n], Arrived(replies[..n]))
      ensures ok ==> n == |batches| && Cleared(old(objects), objects, batches[..n], Arrived(replies[..n]))
    {
      n := 0;
      while n < |batches|
        invariant 0 <= n <= |batches|
        invariant forall i :: 0 <= i < n ==> Clean(batches[i], replies[i])
        invariant Cleared(old(objects), objects, batches[..n], Arrived(replies[..n]))
      {
        var i := n;
        n := n + 1;
        ghost var before := objects;
        var deleted := DeleteObjects(batches[i], replies[i]);
        OneBatch(before, batches[i], replies[i]);
        SparedOnward(old(objects), before, objects, batches[..i], [batches[i]], Arrived(replies[..i]),
                     replies[i].arriving);
        assert batches[..n] == batches[..i] + [batches[i]] && replies[..n][..i] == replies[..i];
        if !deleted {
          return false, n;
        }
      }
      return true, n;
    }

    /**
     `delete_prefix`. It succeeds exactly when the prefix is a valid key, the paginator delivers every page of the
     listing and the service deletes every batch it is sent. Then only keys written in the meantime are left under the
     prefix, and all of those that were not listed. Whether it succeeds or fails, no other key is gone. `fetched` pages
     arrive before the paginator raises; `sent` are the batches.
     */
    method DeletePrefix(prefix: string, pages: seq<seq<string>>, fetched: nat, replies: seq<Reply>)
      returns (ok: bool, sent: seq<seq<string>>)
      requires prefix != "" ==> Lists(pages, objects, ResolvedPrefix(prefix))
      requires |replies| == |Batches(pages)| && fetched <= |pages|
      modifies this
      ensures ok <==> ValidKey(prefix) && fetched == |pages| && AllClean(Batches(pages), replies, |replies|)
      ensures sent <= Batches(pages[..fetched])
      ensures ok ==> Emptied(old(objects), objects, pages, ResolvedPrefix(prefix), Arrived(replies))
      ensures ok && Arrived(replies) == {} ==> objects == Without(old(objects), ResolvedPrefix(prefix))
      ensures sent <= Batches(pages) && (ok ==> Flatten(sent) == Flatten(pages))
      ensures forall i :: 0 <= i < |sent| ==> 1 <= |sent[i]| <= MAX_DELETE_OBJECTS
      ensures objects <= old(objects) + Arrived(replies)
      ensures forall key :: key in old(objects) && key !in objects ==> prefix != "" && ResolvedPrefix(prefix) <= key
    {
      sent := [];
      if !ValidKey(prefix) {
        return false, sent;
      }
      ok, sent := DeletePages(pages, fetched, replies);
      BatchesPartition(pages);
      OnlyListedGone(old(objects), objects, pages, sent, ResolvedPrefix(prefix), replies);
      if ok {
        ListedIsEverything(old(objects), objects, pages, ResolvedPrefix(prefix), Arrived(replies));
      }
    }

    /** The loop over the pages, up to the first batch or page that fails. */
    method DeletePages(pages: seq<seq<string>>, fetched: nat, replies: seq<Reply>)
      returns (ok: bool, sent: seq<seq<string>>)
      requires |replies| == |Batches(pages)| && fetched <= |pages|
      modifies this
      ensures ok <==> fetched == |pages| && AllClean(Batches(pages), replies, |replies|)
      ensures sent <= Batches(pages[..fetched]) && sent <= Batches(pages)
      ensures Spared(old(objects), objects, sent, Arrived(replies[..|sent|]))
      ensures ok ==> sent == Batches(pages) && Cleared(old(objects), objects, sent, Arrived(replies))
    {
      sent := [];
      for p := 0 to |pages|
        invariant p <= fetched && sent == Batches(pages[..p])
        invariant sent <= Batches(pages) && AllClean(Batches(pages), replies, |sent|)
        invariant Cleared(old(objects), objects, sent, Arrived(replies[..|sent|]))
      {
        if p == fetched {
          return false, sent;
        }
        ghost var before, was := sent, objects;
        var batches := ChunkObjects(pages[p]);
        FetchedPage(pages, fetched, p);
        var ofPage := replies[|sent|..|sent| + |batches|];
        var done, n := DeletePage(batches, ofPage);
        AfterPage(old(objects), was, objects, Batches(pages), replies, before, batches, ofPage, n);
        PrefixOfBoth(before, batches, n, Batches(pages[..fetched]));
        sent := sent + batches[..n];
        if !done {
          return false, sent;
        }
        assert batches[..n] == batches;
      }
      assert pages[..fetched] == pages && replies[..|sent|] == replies;
      return true, sent;
    }
  }

  lemma NextPage(pages: seq<seq<string>>, p: nat)
    requires p < |pages|
    ensures Batches(pages[..p + 1]) == Batches(pages[..p]) + ChunkObjects(pages[p])
  {
    assert pages[..p + 1][..p] == pages[..p];
  }

  predicate AllClean(batches: seq<seq<string>>, replies: seq<Reply>, n: nat)
    requires n <= |batches| == |replies|
  {
    forall i :: 0 <= i < n ==> Clean(batches[i], replies[i])
  }

  lemma PageCleanness(all: seq<seq<string>>, replies: seq<Reply>, before: seq<seq<string>>, batches: seq<seq<string>>)
    requires before + batches <= all && |all| == |replies|
    ensures var ofPage := replies[|before|..|before| + |batches|];
      AllClean(all, replies, |before| + |batches|) <==>
      AllClean(all, replies, |before|) && AllClean(batches, ofPage, |batches|)
  {
  }

  /** The batches of the pages so far and of this page begin the batches of the listing. */
  lemma {:induction false} PageIsPart(pages: seq<seq<string>>, p: nat)
    requires p < |pages|
    ensures Batches(pages[..p]) + ChunkObjects(pages[p]) <= Batches(pages)
    decreases |pages|
  {
    if p == |pages| - 1 {
      assert pages[..p] + [pages[p]] == pages;
    } else {
      var init := pages[..|pages| - 1];
      PageIsPart(init, p);
      assert init[..p] == pages[..p];
    }
  }

  lemma FetchedPage(pages: seq<seq<string>>, fetched: nat, p: nat)
    requires p < fetched <= |pages|
    ensures Batches(pages[..p]) + ChunkObjects(pages[p]) <= Batches(pages[..fetched])
    ensures Batches(pages[..p]) + ChunkObjects(pages[p]) <= Batches(pages)
    ensures Batches(pages[..p + 1]) == Batches(pages[..p]) + ChunkObjects(pages[p])
  {
    assert pages[..fetched][..p] == pages[..p];
    PageIsPart(pages[..fetched], p);
    PageIsPart(pages, p);
    NextPage(pages, p);
  }

  lemma PrefixOfBoth(before: seq<seq<string>>, batches: seq<seq<string>>, n: nat, all: seq<seq<string>>)
    requires before + batches <= all && n <= |batches|
    ensures before + batches[..n] <= all
  {
    assert before + batches[..n] == (before + batches)[..|before| + n];
  }

  lemma RepliesOfBoth(replies: seq<Reply>, a: nat, ofPage: seq<Reply>, n: nat)
    requires n <= |ofPage| && a + |ofPage| <= |replies| && ofPage == replies[a..a + |ofPage|]
    ensures Arrived(replies[..a + n]) == Arrived(replies[..a]) + Arrived(ofPage[..n])
  {
    assert replies[..a + n] == replies[..a] + ofPage[..n];
    ArrivedAdds(replies[..a], ofPage[..n]);
  }

  /** What the loop over the pages knows after `n` batches of a page: `was`, `mid` and `now` are the objects. */
  lemma AfterPage(
    was: set<string>, mid: set<string>, now: set<string>, all: seq<seq<string>>, replies: seq<Reply>,
    before: seq<seq<string>>, batches: seq<seq<string>>, ofPage: seq<Reply>, n: nat)
    requires before + batches <= all && |all| == |replies| && n <= |batches| == |ofPage|
    requires ofPage == replies[|before|..|before| + |batches|]
    requires Cleared(was, mid, before, Arrived(replies[..|before|])) && AllClean(all, replies, |before|)
    requires Spared(mid, now, batches[..n], Arrived(ofPage[..n]))
    ensures var sent := before + batches[..n];
      && sent <= all && Spared(was, now, sent, Arrived(replies[..|sent|]))
      && (if AllClean(batches, ofPage, |batches|) then AllClean(all, replies, |before| + |batches|)
          else !AllClean(all, replies, |replies|))
      && (Cleared(mid, now, batches[..n], Arrived(ofPage[..n])) ==> Cleared(was, now, sent, Arrived(replies[..|sent|])))
  {
    PrefixOfBoth(before, batches, n, all);
    RepliesOfBoth(replies, |before|, ofPage, n);
    PageCleanness(all, replies, before, batches);
    SparedOnward(was, mid, now, before, batches[..n], Arrived(replies[..|before|]), Arrived(ofPage[..n]));
  }

  // ---------------------------------------------------------------- one job's files

  const UP := ".."

  lemma UpIsAPart()
    ensures Parts(UP) == [UP]
  {
    OnePart(UP);
  }

  lemma ClimbingInside(a: string, b: string)
    ensures UP in Parts(a + "/" + UP) && UP in Parts(a + "/" + UP + "/" + b)
  {
    UpIsAPart();
    PartsJoin(a, UP);
    PartsJoin(a + "/" + UP, b);
  }

  /** Empty and absolute keys are refused, and so is every key with a component that climbs. */
  lemma ClimbingKeysRefused(a: string, b: string)
    ensures !ValidKey("") && !ValidKey("/" + a)
    ensures !ValidKey(UP) && !ValidKey(UP + "/" + b) && !ValidKey(a + "/" + UP) && !ValidKey(a + "/" + UP + "/" + b)
  {
    UpIsAPart();
    PartsJoin(UP, b);
    ClimbingInside(a, b);
  }

  lemma TwoLevelPrefix(top: string, segment: string)
    requires top != "" && '/' !in top && '.' !in top && segment != "" && '/' !in segment && '.' !in segment
    ensures ValidKey(top + "/" + segment + "/")
  {
    assert "."[0] == '.' && ".."[0] == '.';
    assert top != "." && segment != "." && top[0] in top;
    OnePart(top);
    LastPart(top, segment);
    SlashAddsNoPart(top + "/" + segment);
    assert ".."[0] !in top && ".."[0] !in segment;
  }

  lemma JobPrefixIsValid(id: nat)
    requires id > 0
    ensures ValidKey(JobPrefix(id)) && ResolvedPrefix(JobPrefix(id)) == JobPrefix(id)
  {
    DigitsArePlain(Decimal.Print(id));
    TwoLevelPrefix(JOBS_PREFIX, Decimal.Print(id));
  }

  /** Deleting the files of one job leaves none of its keys and every key of every other job. */
  lemma OneJobsFiles(objects: set<string>, a: nat, b: nat, filename: string)
    requires a > 0 && b > 0
    ensures ValidKey(JobPrefix(a))
    ensures var left := Without(objects, ResolvedPrefix(JobPrefix(a)));
      JobInputKey(b, filename) in left <==> JobInputKey(b, filename) in objects && a != b
  {
    JobPrefixIsValid(a);
    PrefixCoversOwnKeysOnly(a, b, filename);
  }
}
