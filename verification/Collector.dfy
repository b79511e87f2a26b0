/**
 The collector of tools/product_archive.py as an object: each method is the source's sequence of
 durable writes, and `log` is that sequence. Since every prefix of a run is a run, whatever is
 proved of all runs holds at every point where the process can die.
 */
module Collector {
  import opened Wrappers
  import opened LiveSource
  import opened FullFrames
  import opened ArchiveModel
  import opened ArchiveSafety
  import opened ArchiveTheorems
  import opened ArchiveContents
  import opened Gains

  const DAY := 86_400_000_000_000
  const HISTORY := 34 * 60 * 1_000_000_000

  datatype CaptureError = SourceError(error: Error) | SealedBuffer | QuotaExceeded | ClockBackward | PointerRaised

  predicate JoinsMade(b: Batch, product: Product, made: Made) {
    Joins(b, EventOf(product, made, 0, 0, 0))
  }

  /** Nothing changed but this one batch, which is the same batch with at least the events it had. */
  ghost predicate OnlyBatch(w: World, w': World, id: BatchId) {
    && id in w.batches && id in w'.batches && w' == Put(w, id, w'.batches[id])
    && w'.batches[id] == w.batches[id].(events := w'.batches[id].events, heads := w'.batches[id].heads,
                                        usage := w'.batches[id].usage, dirs := w'.batches[id].dirs,
                                        gaps := w'.batches[id].gaps, progress := w'.batches[id].progress)
    && w.batches[id].events <= w'.batches[id].events && w.batches[id].gaps <= w'.batches[id].gaps
  }

  lemma OnlyBatchTrans(w: World, w1: World, w2: World, id: BatchId)
    requires OnlyBatch(w, w1, id) && OnlyBatch(w1, w2, id)
    ensures OnlyBatch(w, w2, id)
  {
    assert w.batches[id := w1.batches[id]][id := w2.batches[id]] == w.batches[id := w2.batches[id]];
  }

  lemma OnlyBatchKeepsOwned(w: World, w': World, id: BatchId)
    requires OnlyBatch(w, w', id) && Owned(w, id)
    ensures Owned(w', id) && w'.batches[id].indexed == w.batches[id].indexed
  {}

  /** The active batch of a source is intact and its own. */
  lemma ActiveFacts(w: World, source: Source)
    requires Inv(w) && source in w.active
    ensures w.active[source] in w.batches && Owned(w, w.active[source]) && w.batches[w.active[source]].indexed
    ensures w.batches[w.active[source]].descriptor.value.source == source
    ensures w.active[source] in w.published && w.active[source] !in w.departed
  {}

  /** What a recovery sweep deletes. */
  predicate Leftover(w: World, source: Source, id: BatchId) {
    && id in w.batches && !w.batches[id].sealed
    && (w.batches[id].descriptor.Some? ==>
          w.batches[id].descriptor.value.source == source && ActiveOf(w, source) != Some(id))
  }

  /** What a recovery sweep spares: sealed batches, described ones of other sources, and the active one. */
  ghost predicate Spared(w: World, source: Source, id: BatchId)
    requires id in w.batches
  {
    || w.batches[id].sealed
    || (w.batches[id].descriptor.Some?
        && (w.batches[id].descriptor.value.source != source || ActiveOf(w, source) == Some(id)))
  }

  /** Sweeping a leftover leaves the active batch and its predecessor alone. */
  lemma StillSettled(w: World, source: Source, id: BatchId)
    requires Inv(w) && Settled(w, source) && Leftover(w, source, id)
    ensures Sweepable(w, id) && Settled(w.(batches := w.batches - {id}), source)
  {
    SweepSparesPublished(w, id);
  }

  /** The same batch with the same history; only its seal and stray payloads may differ. */
  ghost predicate SameHistory(b: Batch, b': Batch) {
    b' == b.(sealed := b'.sealed, dirs := b'.dirs) && (b.sealed ==> b'.sealed)
  }

  /**
   What recovery promises: pointers untouched, no rotation half done, exactly the spared batches and
   the active one's predecessor left, each with its history, every published batch among them, and in
   the active batch exactly the payload directories its committed events name.
   */
  ghost predicate Recovered(w: World, w': World, source: Source) {
    && w' == w.(batches := w'.batches) && Settled(w', source)
    && (forall id | id in w'.batches ::
          id in w.batches && SameHistory(w.batches[id], w'.batches[id]) && Spared(w', source, id))
    && (forall id | id in w.batches :: id in w'.batches <==> Spared(w, source, id) || PreviousOf(w, source) == Some(id))
    && (forall id | id in w.published && id !in w.departed && id in w.batches :: id in w'.batches)
    && (source in w.active && w.active[source] in w'.batches ==>
          var b := w'.batches[w.active[source]];
          forall dir :: dir in b.dirs <==> Committed(b, dir))
  }

  ghost predicate RotationFinished(w: World, w': World, source: Source) {
    var p := PreviousOf(w, source);
    && Settled(w', source)
    && w' == if p.Some? && p.value in w.batches then Put(w, p.value, w.batches[p.value].(sealed := true)) else w
  }

  ghost predicate Swept(w: World, w': World, source: Source) {
    && w' == w.(batches := w'.batches) && Settled(w', source)
    && (forall id :: id in w'.batches <==> id in w.batches && Spared(w, source, id))
    && (forall id | id in w'.batches :: w'.batches[id] == w.batches[id])
  }

  /** No leftover is a published batch still held in the buffer. */
  ghost predicate LeftoversUnpublished(w: World, source: Source) {
    forall id | Leftover(w, source, id) :: id in w.published ==> id in w.departed
  }

  lemma SweepSparesHistory(w: World, source: Source)
    requires Inv(w) && Settled(w, source)
    ensures LeftoversUnpublished(w, source)
  {
    forall id | Leftover(w, source, id) ensures id in w.published ==> id in w.departed {
      StillSettled(w, source, id);
      SweepSparesPublished(w, id);
    }
  }

  lemma RecoveredBySweep(w: World, w1: World, w2: World, source: Source)
    requires RotationFinished(w, w1, source) && LeftoversUnpublished(w1, source) && Swept(w1, w2, source)
    ensures w2 == w.(batches := w2.batches) && Settled(w2, source)
    ensures forall id | id in w2.batches ::
              id in w.batches && SameHistory(w.batches[id], w2.batches[id]) && Spared(w2, source, id)
    ensures forall id | id in w.batches ::
              id in w2.batches <==> Spared(w, source, id) || PreviousOf(w, source) == Some(id)
    ensures forall id | id in w.published && id !in w.departed && id in w.batches :: id in w2.batches
  {}

  /** Dropping stray payloads of the active batch completes recovery. */
  lemma RecoveredByPayloads(w: World, w2: World, w3: World, source: Source)
    requires w2 == w.(batches := w2.batches) && Settled(w2, source)
    requires forall id | id in w2.batches ::
               id in w.batches && SameHistory(w.batches[id], w2.batches[id]) && Spared(w2, source, id)
    requires forall id | id in w.batches ::
               id in w2.batches <==> Spared(w, source, id) || PreviousOf(w, source) == Some(id)
    requires forall id | id in w.published && id !in w.departed && id in w.batches :: id in w2.batches
    requires source in w.active && w.active[source] in w2.batches && Sound(w2.batches[w.active[source]])
    requires var b := w2.batches[w.active[source]];
             w3 == Put(w2, w.active[source], b.(dirs := set dir | dir in b.dirs && Committed(b, dir)))
    ensures Recovered(w, w3, source)
  {
    var id := w.active[source];
    assert forall dir | Committed(w2.batches[id], dir) :: dir in w2.batches[id].dirs;
    PayloadsSettled(w2, w3.batches[id].dirs, source, id);
    forall i | i in w3.batches
      ensures i in w.batches && SameHistory(w.batches[i], w3.batches[i]) && Spared(w3, source, i)
    {
      assert i in w2.batches && Spared(w2, source, i);
    }
  }

  lemma PayloadsSettled(w2: World, dirs: set<Dir>, source: Source, id: BatchId)
    requires id in w2.batches && Settled(w2, source)
    ensures Settled(Put(w2, id, w2.batches[id].(dirs := dirs)), source)
  {}

  /** The heads that a drain or a catch-up works towards are those read at its first look, if that succeeded. */
  ghost predicate Frozen(feed: Feed, look: nat, heads: map<Product, Head>) {
    heads == map[] || LiveSource.Heads(feed.stores(look)) == Success(heads)
  }

  /**
   What an old day gained before it was closed: everything up to midnight towards the heads read at the
   first look, or part of it if the drain failed.
   */
  ghost predicate OldDay(feed: Feed, at: int, lo: nat, hi: nat, frozen: map<Product, Head>, start: int, full: bool,
                         b: Batch, b': Batch) {
    && Frozen(feed, lo, frozen) && (full ==> LiveSource.Heads(feed.stores(lo)) == Success(frozen))
    && if full then Progress(feed, at, lo, hi, frozen, Some(start), b, b', b.heads.Keys)
       else PartProgress(feed, at, lo, hi, frozen, Some(start), b, b')
  }

  lemma OldDayLonger(feed: Feed, at: int, lo: nat, hi: nat, hi': nat, frozen: map<Product, Head>, start: int,
                     full: bool, b: Batch, b': Batch)
    requires OldDay(feed, at, lo, hi, frozen, start, full, b, b') && hi <= hi'
    ensures OldDay(feed, at, lo, hi', frozen, start, full, b, b')
  {
    if full {
      ProgressWider(feed, at, lo, hi, lo, hi', frozen, Some(start), b, b', b.heads.Keys);
    } else {
      PartWider(feed, at, lo, hi, lo, hi', frozen, Some(start), b, b');
    }
  }

  lemma OldDayOf(feed: Feed, at: int, lo: nat, hi: nat, frozen: map<Product, Head>, start: int, full: bool,
                 b: Batch, b': Batch, c: Batch, c': Batch)
    requires OldDay(feed, at, lo, hi, frozen, start, full, b, b')
    requires c.events == b.events && c.heads == b.heads && c'.events == b'.events && c'.heads == b'.heads
    ensures OldDay(feed, at, lo, hi, frozen, start, full, c, c')
  {
    if full {
      ProgressOf(feed, at, lo, hi, frozen, Some(start), b, b', c, c', b.heads.Keys);
    } else {
      PartOf(feed, at, lo, hi, frozen, Some(start), b, b', c, c');
    }
  }

  /** A source with an active batch of another day. */
  predicate OverDay(w: World, source: Source, day: int) {
    && source in w.active && w.active[source] in w.batches
    && w.batches[w.active[source]].descriptor.Some? && w.batches[w.active[source]].descriptor.value.day != day
  }

  /** A day that is over has gained what its drain may add, and nothing since. */
  ghost predicate DayClosed(feed: Feed, lo: nat, hi: nat, w: World, w': World, source: Source, at: int, full: bool) {
    OverDay(w, source, at / DAY) ==>
      var id := w.active[source];
      && id in w'.batches
      && exists frozen :: OldDay(feed, at, lo, hi, frozen, at / DAY * DAY, full, w.batches[id], w'.batches[id])
  }

  /** The batches agree in what was committed to them. */
  predicate SameContent(w: World, w': World, id: BatchId) {
    && id in w.batches && id in w'.batches
    && w'.batches[id].events == w.batches[id].events && w'.batches[id].heads == w.batches[id].heads
  }

  lemma DayClosedOf(feed: Feed, lo: nat, hi: nat, hi': nat, w0: World, w1: World, w2: World, w3: World,
                    source: Source, at: int, full: bool)
    requires DayClosed(feed, lo, hi, w1, w2, source, at, full) && hi <= hi' && SameActive(w0, w1, source)
    requires source in w1.active && w1.active[source] in w2.batches ==> SameContent(w2, w3, w1.active[source])
    ensures DayClosed(feed, lo, hi', w0, w3, source, at, full)
  {
    if OverDay(w0, source, at / DAY) {
      var id := w0.active[source];
      var frozen :| OldDay(feed, at, lo, hi, frozen, at / DAY * DAY, full, w1.batches[id], w2.batches[id]);
      OldDayLonger(feed, at, lo, hi, hi', frozen, at / DAY * DAY, full, w1.batches[id], w2.batches[id]);
      OldDayOf(feed, at, lo, hi', frozen, at / DAY * DAY, full, w1.batches[id], w2.batches[id], w0.batches[id],
          w3.batches[id]);
    }
  }

  lemma DayClosedPartly(feed: Feed, lo: nat, hi: nat, w: World, w': World, source: Source, at: int)
    requires DayClosed(feed, lo, hi, w, w', source, at, true)
    ensures DayClosed(feed, lo, hi, w, w', source, at, false)
  {
    if OverDay(w, source, at / DAY) {
      var id := w.active[source];
      var frozen :| OldDay(feed, at, lo, hi, frozen, at / DAY * DAY, true, w.batches[id], w'.batches[id]);
      ProgressIsPart(feed, at, lo, hi, frozen, Some(at / DAY * DAY), w.batches[id], w'.batches[id],
          w.batches[id].heads.Keys);
      assert OldDay(feed, at, lo, hi, frozen, at / DAY * DAY, false, w.batches[id], w'.batches[id]);
    }
  }

  /** A new day opened with a full state for each head the old one ended with, or for each head of the source. */
  ghost predicate SeededFrom(feed: Feed, at: int, lo: nat, hi: nat, previous: Option<Batch>, b: Batch) {
    exists seeds: map<Product, Head> ::
      && Progress(feed, at, lo, hi, seeds, None, NEW_BATCH, b, seeds.Keys)
      && if previous.Some? then seeds == previous.value.heads
         else exists look: nat :: lo <= look < hi && LiveSource.Heads(feed.stores(look)) == Success(seeds)
  }

  lemma SeededLonger(feed: Feed, at: int, lo: nat, hi: nat, lo': nat, hi': nat, previous: Option<Batch>,
                     previous': Option<Batch>, b: Batch)
    requires SeededFrom(feed, at, lo, hi, previous, b) && lo' <= lo && hi <= hi'
    requires previous'.Some? == previous.Some? && (previous.Some? ==> previous'.value.heads == previous.value.heads)
    ensures SeededFrom(feed, at, lo', hi', previous', b)
  {
    var seeds: map<Product, Head> :|
                 && Progress(feed, at, lo, hi, seeds, None, NEW_BATCH, b, seeds.Keys)
                 && if previous.Some? then seeds == previous.value.heads
                    else exists look: nat :: lo <= look < hi && LiveSource.Heads(feed.stores(look)) == Success(seeds);
    ProgressWider(feed, at, lo, hi, lo', hi', seeds, None, NEW_BATCH, b, seeds.Keys);
  }

  /** A new day opens at midnight, the very first one with the call. */
  ghost function SeedTime(previous: Option<Batch>, at: int): int { if previous.Some? then at / DAY * DAY else at }

  ghost function BatchOf(w: World, source: Source): Option<Batch> {
    if source in w.active && w.active[source] in w.batches then Some(w.batches[w.active[source]]) else None
  }

  /** The batch that was active, as it is now. */
  ghost function OldBatch(w: World, w': World, source: Source): Option<Batch> {
    if source in w.active && w.active[source] in w'.batches then Some(w'.batches[w.active[source]]) else None
  }

  /** How the day's batch came about: it was there, or was opened from where the old one ended. */
  ghost predicate NewDay(feed: Feed, lo: nat, hi: nat, w: World, w': World, source: Source, at: int, id: BatchId,
                         base: Batch) {
    if source in w.active && !OverDay(w, source, at / DAY)
    then id == w.active[source] && id in w.batches
         && base.events == w.batches[id].events && base.heads == w.batches[id].heads
    else SeededFrom(feed, SeedTime(OldBatch(w, w', source), at), lo, hi, OldBatch(w, w', source), base)
  }

  /** Recovery does not matter to what was committed. */
  lemma DayClosedFrom(feed: Feed, lo: nat, hi: nat, w: World, w1: World, w2: World, at: int, full: bool)
    requires SameActive(w, w1, feed.identity) && DayClosed(feed, lo, hi, w1, w2, feed.identity, at, full)
    ensures DayClosed(feed, lo, hi, w, w2, feed.identity, at, full)
  {
    if OverDay(w, feed.identity, at / DAY) {
      assert SameContent(w2, w2, w1.active[feed.identity]);
      DayClosedOf(feed, lo, hi, hi, w, w1, w2, w2, feed.identity, at, full);
    }
  }

  lemma NewDayFrom(feed: Feed, lo: nat, hi: nat, w: World, w1: World, w2: World, at: int, id: BatchId, base: Batch)
    requires SameActive(w, w1, feed.identity) && PointersValid(w)
    requires NewDay(feed, lo, hi, w1, w2, feed.identity, at, id, base)
    ensures NewDay(feed, lo, hi, w, w2, feed.identity, at, id, base)
  {}

  /** After the drain the new day was opened from where the old one ended. */
  lemma RotatedSo(feed: Feed, lo: nat, mid: nat, hi: nat, w: World, w1: World, w2: World, at: int, id: BatchId,
                  full: bool)
    requires lo <= mid <= hi && Kept(w, w1) && w1.active == w.active && w1.batches.Keys == w.batches.Keys
    requires feed.identity in w.active ==> OverDay(w, feed.identity, at / DAY)
    requires DayClosed(feed, lo, mid, w, w1, feed.identity, at, true)
    requires DayOpened(w1, w2, feed.identity, id, at / DAY, full)
    requires SeededFrom(feed, SeedTime(BatchOf(w1, feed.identity), at), mid, hi, BatchOf(w1, feed.identity),
                        w2.batches[id])
    ensures Kept(w, w2) && id !in w.batches && DayClosed(feed, lo, hi, w, w2, feed.identity, at, full)
    ensures NewDay(feed, lo, hi, w, w2, feed.identity, at, id, w2.batches[id])
  {
    var source := feed.identity;
    KeptByRotation(w1, w2, source, id, at / DAY, full);
    KeptTrans(w, w1, w2);
    if source in w.active {
      assert SameContent(w1, w2, w.active[source]);
      DayClosedOf(feed, lo, mid, hi, w, w, w1, w2, source, at, true);
      if !full { DayClosedPartly(feed, lo, hi, w, w2, source, at); }
    }
    SeededLonger(feed, SeedTime(BatchOf(w1, source), at), mid, hi, lo, hi, BatchOf(w1, source), OldBatch(w, w2, source),
        w2.batches[id]);
  }

  lemma NotRotated(feed: Feed, lo: nat, mid: nat, hi: nat, w: World, w1: World, w2: World, at: int)
    requires mid <= hi && Kept(w, w1) && w2 == w1.(names := w2.names)
    requires DayClosed(feed, lo, mid, w, w1, feed.identity, at, true)
    ensures Kept(w, w2) && DayClosed(feed, lo, hi, w, w2, feed.identity, at, false)
  {
    if OverDay(w, feed.identity, at / DAY) {
      assert SameContent(w1, w2, w.active[feed.identity]);
      DayClosedOf(feed, lo, mid, hi, w, w, w1, w2, feed.identity, at, true);
      DayClosedPartly(feed, lo, hi, w, w2, feed.identity, at);
    }
  }

  /** What `collect` did before it caught up still stands afterwards. */
  lemma CollectedSo(feed: Feed, lo: nat, mid: nat, hi: nat, w: World, w2: World, w3: World, at: int,
                    id: BatchId, base: Batch)
    requires mid <= hi && OnlyBatch(w2, w3, id)
    requires DayClosed(feed, lo, mid, w, w2, feed.identity, at, true)
    requires NewDay(feed, lo, mid, w, w2, feed.identity, at, id, base)
    requires OverDay(w, feed.identity, at / DAY) ==> w.active[feed.identity] != id
    ensures DayClosed(feed, lo, hi, w, w3, feed.identity, at, true)
    ensures NewDay(feed, lo, hi, w, w3, feed.identity, at, id, base)
  {
    var source := feed.identity;
    if OverDay(w, source, at / DAY) {
      assert SameContent(w2, w3, w.active[source]);
      DayClosedOf(feed, lo, mid, hi, w, w, w2, w3, source, at, true);
    }
    if source !in w.active || OverDay(w, source, at / DAY) {
      SeededLonger(feed, SeedTime(OldBatch(w, w2, source), at), lo, mid, lo, hi, OldBatch(w, w2, source),
          OldBatch(w, w3, source), base);
    }
  }

  /** If the last collection was longer ago than full frames are retained, the batch it wrote to says so. */
  ghost predicate AbsenceRecorded(w: World, w': World, source: Source, at: int) {
    source in w.active && w.active[source] in w.batches ==>
      var id := w.active[source];
      && id in w'.batches
      && (w.batches[id].progress.Some? && at - w.batches[id].progress.value > HISTORY ==>
            AbsenceGap(w.batches[id].progress.value) in w'.batches[id].gaps)
  }

  lemma AbsenceStays(w: World, w1: World, w2: World, source: Source, at: int)
    requires PointersValid(w) && AbsenceRecorded(w, w1, source, at) && Kept(w, w1) && Kept(w1, w2)
    ensures AbsenceRecorded(w, w2, source, at)
  {}

  /** The active batch is the same one with the same events. */
  ghost predicate SameActive(w: World, w': World, source: Source) {
    && w'.active == w.active
    && (source in w.active && w.active[source] in w.batches ==>
          var id := w.active[source];
          && id in w'.batches && w'.batches[id].events == w.batches[id].events
          && w'.batches[id].heads == w.batches[id].heads && w'.batches[id].descriptor == w.batches[id].descriptor)
  }

  lemma SameActiveByRecovery(w: World, w': World, source: Source)
    requires Recovered(w, w', source) && PointersValid(w)
    ensures SameActive(w, w', source)
  {}

  /** How writing the pointer ends: done, or raised before or after it took effect. */
  datatype SwapOutcome = Swapped | RaisedBefore | RaisedAfter

  /** Ask the source what follows a committed head. */
  method AskUpdates(feed: Feed, look: nat, product: Product, previous: Head, head: Head)
    returns (r: Result<seq<Head>, CaptureError>)
    ensures r.Success? ==> Answered(feed, look, product, previous, head, r.value)
  {
    var updates := Updates(feed.stores(look), feed.listings(look, product), product, previous, head);
    r := if updates.Success? then Success(updates.value) else Failure(SourceError(updates.error));
  }

  /** A new batch is active; nothing else changed but the seal of the batch it succeeds. */
  ghost predicate DayOpened(w: World, w': World, source: Source, id: BatchId, day: int, sealing: bool) {
    && id !in w.names && id !in w.batches && id in w'.batches
    && w'.active == w.active[source := id] && w'.published == w.published + {id} && w'.departed == w.departed
    && w'.batches[id].descriptor == Some(Descriptor(source, day, ActiveOf(w, source)))
    && w'.batches.Keys == w.batches.Keys + {id}
    && (forall i | i in w.batches ::
          w'.batches[i] == if sealing && ActiveOf(w, source) == Some(i) then w.batches[i].(sealed := true)
              else w.batches[i])
  }

  /** Every published batch still in the buffer is still there, with at least the events it had. */
  ghost predicate Kept(w: World, w': World) {
    && w.published <= w'.published && w'.departed == w.departed
    && forall id | id in w.published && id !in w.departed && id in w.batches ::
         && id in w'.batches && w.batches[id].events <= w'.batches[id].events
         && w.batches[id].gaps <= w'.batches[id].gaps && (w.batches[id].sealed ==> w'.batches[id].sealed)
  }

  /** The batch that was active is sealed. */
  ghost predicate LetGo(w: World, w': World, source: Source) {
    source in w.active ==> w.active[source] in w'.batches && w'.batches[w.active[source]].sealed
  }

  lemma StaysLetGo(w: World, w1: World, w2: World, source: Source)
    requires PointersValid(w) && LetGo(w, w1, source) && Kept(w, w1) && Kept(w1, w2)
    ensures LetGo(w, w2, source)
  {}

  lemma KeptTrans(w: World, w1: World, w2: World)
    requires Kept(w, w1) && Kept(w1, w2)
    ensures Kept(w, w2)
  {}

  lemma KeptByOne(w: World, w': World, id: BatchId)
    requires OnlyBatch(w, w', id)
    ensures Kept(w, w')
  {}

  lemma KeptBySeal(w: World, source: Source, id: BatchId)
    requires id in w.batches
    ensures Kept(w, Put(w, id, w.batches[id].(sealed := true)).(active := w.active - {source}))
  {}

  lemma KeptByRecovery(w: World, w': World, source: Source)
    requires Recovered(w, w', source)
    ensures Kept(w, w')
  {}

  lemma KeptByRotation(w: World, w': World, source: Source, id: BatchId, day: int, sealing: bool)
    requires DayOpened(w, w', source, id, day, sealing)
    ensures Kept(w, w')
  {}

  /** The seeded batch may become active: it continues the day before it. */
  lemma SwapReady(w: World, source: Source, id: BatchId, seeds: map<Product, Head>)
    requires Writable(w, id) && id !in w.published
    requires w.batches[id].descriptor.value.source == source
    requires w.batches[id].descriptor.value.previous == ActiveOf(w, source) && Settled(w, source)
    requires Opened(seeds, w.batches[id])
    requires source in w.active && w.active[source] in w.batches ==> w.batches[w.active[source]].heads == seeds
    ensures Enabled(w, SwapPointer(source, id))
  {}

  /** The name refers to nothing yet. */
  ghost predicate NewName(w: World, source: Source, id: BatchId) {
    id !in w.batches && id !in w.published && PreviousOf(w, source) != Some(id) && ActiveOf(w, source) != Some(id)
  }

  /** The buffer as it was, with one more batch that no pointer names. */
  ghost predicate Built(w: World, w': World, id: BatchId) {
    && id !in w.batches && id in w'.batches && id !in w'.published
    && w' == w.(batches := w'.batches, names := w'.names)
    && w'.batches.Keys == w.batches.Keys + {id} && forall i | i in w.batches :: w'.batches[i] == w.batches[i]
  }

  lemma BuiltByOne(w: World, w1: World, w2: World, id: BatchId)
    requires id !in w.batches && id !in w.published && id in w1.batches
    requires w1 == Put(w, id, w1.batches[id]).(names := w1.names) && OnlyBatch(w1, w2, id)
    ensures Built(w, w2, id)
  {}

  lemma Opens(w: World, w1: World, w2: World, source: Source, id: BatchId, day: int)
    requires Built(w, w1, id) && id !in w.names
    requires w1.batches[id].descriptor == Some(Descriptor(source, day, ActiveOf(w, source)))
    requires w2 == w1.(active := w1.active[source := id], published := w1.published + {id})
    ensures DayOpened(w, w2, source, id, day, false)
  {}

  /** The world is what the logged writes lead to, and no name or directory number is ahead of the counter. */
  ghost predicate Recorded(world: World, log: seq<Action>, uuid: nat) {
    && IsRun(Initial(world.quota), log) && world == After(Initial(world.quota), log)
    && (forall id | id in world.names :: id < uuid)
    && (forall id, dir | id in world.batches && dir in world.batches[id].dirs :: dir < uuid)
  }

  /** The same, folded away: most methods keep it without looking into it. */
  ghost predicate Folded(world: World, log: seq<Action>, uuid: nat, folds: nat)
    decreases folds
  {
    if folds == 0 then Recorded(world, log, uuid) else Folded(world, log, uuid, folds - 1)
  }

  lemma {:induction false} Unfold(world: World, log: seq<Action>, uuid: nat, folds: nat)
    ensures Folded(world, log, uuid, folds) == Recorded(world, log, uuid)
  {
    if folds > 0 { Unfold(world, log, uuid, folds - 1); }
  }

  class DailyCapture {
    var world: World
    var uuid: nat
    var looks: nat
    ghost var log: seq<Action>
    ghost const folds: nat

    ghost predicate Valid()
      reads this
    {
      Folded(world, log, uuid, folds)
    }

    constructor (quota: nat)
      ensures Valid() && world == Initial(quota) && log == []
    {
      world, uuid, looks, log, folds := Initial(quota), 0, 0, [], 0;
    }

    /** The log is a run that leads to this world. */
    lemma IsRecorded()
      requires Valid()
      ensures Recorded(world, log, uuid)
    {
      Unfold(world, log, uuid, folds);
    }

    lemma Safe()
      requires Valid()
      ensures Inv(world) && AllSound(world)
    {
      IsRecorded();
      RunContents(world.quota, log);
    }

    lemma ActiveSafe(source: Source)
      requires Valid() && source in world.active
      ensures Owned(world, world.active[source]) && world.batches[world.active[source]].indexed
      ensures world.batches[world.active[source]].descriptor.value.source == source
    {
      Safe();
      ActiveFacts(world, source);
    }

    lemma SweepSafe(source: Source, id: BatchId)
      requires Valid() && Settled(world, source) && Leftover(world, source, id)
      ensures Sweepable(world, id) && Settled(world.(batches := world.batches - {id}), source)
    {
      Safe();
      StillSettled(world, source, id);
    }

    lemma StageSafe(id: BatchId, dir: Dir)
      requires Valid() && Owned(world, id) && dir !in world.batches[id].dirs
      ensures !Committed(world.batches[id], dir)
    {
      Safe();
      NotCommitted(dir, world, id);
    }

    /** One durable write. */
    method Do(a: Action)
      requires Valid() && Enabled(world, a)
      requires a.MakeBatch? ==> a.id < uuid
      requires a.MakeEventDir? ==> a.dir < uuid
      requires a.ShredBatch? ==> a.remains.dirs == {}
      modifies this`world, this`log
      ensures Valid() && world == Apply(old(world), a) && log == old(log) + [a]
    {
      IsRecorded();
      Then(Initial(world.quota), log, a);
      FreshStep(world, a, uuid);
      world := Apply(world, a);
      log := log + [a];
      Unfold(world, log, uuid, folds);
    }

    /** `buffer_bytes`, apart from the size of the index files. */
    method BufferBytes() returns (total: nat)
      ensures total == TotalUsage(world.batches)
    {
      total := 0;
      var rest := world.batches;
      while rest != map[]
        invariant total + TotalUsage(rest) == TotalUsage(world.batches)
        decreases |rest|
      {
        var id :| id in rest;
        UsageWithout(rest, id);
        total := total + rest[id].usage;
        rest := rest - {id};
      }
    }

    /** `uuid4`: a number not used before. */
    method NextName()
      requires Valid()
      modifies this`uuid
      ensures Valid() && uuid == old(uuid) + 1 && old(uuid) !in world.names
      ensures forall id | id in world.batches :: old(uuid) !in world.batches[id].dirs
    {
      IsRecorded();
      uuid := uuid + 1;
      Unfold(world, log, uuid, folds);
    }

    /** A fresh event directory. */
    method Stage(id: BatchId) returns (dir: Dir)
      requires Valid() && Writable(world, id)
      modifies this
      ensures Valid() && old(log) <= log && looks == old(looks)
      ensures world == Put(old(world), id, old(world.batches[id]).(dirs := old(world.batches[id]).dirs + {dir}))
      ensures dir == old(uuid) && dir !in old(world.batches[id]).dirs && !Committed(world.batches[id], dir)
    {
      dir := uuid;
      NextName();
      StageSafe(id, dir);
      Do(MakeEventDir(id, dir));
    }

    /** The alarm, if the event resumes after a gap, and then the one transaction. */
    method Commit(id: BatchId, event: Event, overhead: nat)
      requires Valid() && Writable(world, id)
      requires event.dir in world.batches[id].dirs && !Committed(world.batches[id], event.dir)
      requires Joins(world.batches[id], event)
      requires TotalUsage(world.batches) + overhead + event.bytes <= world.quota
      modifies this
      ensures Valid() && old(log) <= log && uuid == old(uuid) && looks == old(looks)
      ensures var b := old(world.batches[id]);
              world == Put(old(world), id, b.(
                events := b.events + [event], heads := b.heads[event.product := event.head],
                usage := b.usage + event.bytes,
                gaps := if event.gap then b.gaps + {EventGap(event.product, event.head.version)} else b.gaps))
    {
      if event.gap {
        ghost var w := world;
        Do(NoteGap(id, EventGap(event.product, event.head.version)));
        SameUsage(w.batches, id, world.batches[id]);
        ghost var noted := world.batches[id];
        Do(CommitEvent(id, event, overhead));
        PutPut(w, id, noted, world.batches[id]);
      } else {
        Do(CommitEvent(id, event, overhead));
      }
    }

    /**
     `_append`. The event is committed with its head and its bytes, or nothing of it remains; the
     alarm for a gap is durable first. `made` is what reading the source produced.
     */
    method Append(id: BatchId, product: Product, made: Result<Made, Error>, at: int, bytes: nat, overhead: nat)
      returns (r: Result<Head, CaptureError>)
      requires Valid() && Owned(world, id) && world.batches[id].indexed
      requires made.Success? ==> JoinsMade(world.batches[id], product, made.value)
      modifies this
      ensures Valid() && old(log) <= log && OnlyBatch(old(world), world, id) && looks == old(looks)
      ensures r.Success? <==>
                !old(world.batches[id]).sealed && made.Success?
                && TotalUsage(old(world.batches)) + overhead + bytes <= world.quota
      ensures var b, b' := old(world.batches[id]), world.batches[id];
              if r.Success? then
                && r.value == made.value.head
                && b'.events == b.events + [EventOf(product, made.value, old(uuid), at, bytes)]
                && b'.heads == b.heads[product := r.value] && b'.dirs == b.dirs + {old(uuid)}
                && b'.usage == b.usage + bytes && b'.progress == b.progress
                && b'.gaps == b.gaps + (if made.value.gap then {EventGap(product, r.value.version)} else {})
              else b' == b
      ensures r.Success? ==>
                var e := world.batches[id].events[|old(world.batches[id]).events|];
                && e.product == product && Made(e.kind, e.head, e.gap) == made.value && Dated(e, at)
                && e.dir == old(uuid) && e.bytes == bytes
      ensures r.Failure? ==>
                r.error == if old(world.batches[id]).sealed then SealedBuffer
                           else if made.Failure? then SourceError(made.error) else QuotaExceeded
    {
      ghost var w := world;
      if world.batches[id].sealed { return Failure(SealedBuffer); }
      var dir := Stage(id);
      SameUsage(w.batches, id, world.batches[id]);
      var used := BufferBytes();
      if made.Success? && used + overhead + bytes <= world.quota {
        ghost var staged := world.batches[id];
        Commit(id, EventOf(product, made.value, dir, at, bytes), overhead);
        PutPut(w, id, staged, world.batches[id]);
        r := Success(made.value.head);
      } else {
        Do(DropEventDir(id, dir));
        Dropped(w, id, dir);
        r := Failure(if made.Failure? then SourceError(made.error) else QuotaExceeded);
      }
    }

    /** `shutil.rmtree` of a batch: its files go one by one before the directory does. */
    method RemoveTree(id: BatchId)
      requires Valid() && Sweepable(world, id)
      modifies this
      ensures Valid() && old(log) <= log && uuid == old(uuid) && looks == old(looks)
      ensures world == old(world).(batches := old(world.batches) - {id})
    {
      ghost var w := world;
      var remains := NEW_BATCH.(whole := false);
      Do(ShredBatch(id, remains));
      Do(RemoveBatch(id));
      assert w.batches[id := remains] - {id} == w.batches - {id};
    }

    /** Finish a rotation that was cut short between the pointer and the seal. */
    method FinishRotation(source: Source)
      requires Valid()
      modifies this
      ensures Valid() && old(log) <= log && uuid == old(uuid) && looks == old(looks)
      ensures RotationFinished(old(world), world, source)
    {
      if source in world.active {
        ActiveSafe(source);
        var previous := world.batches[world.active[source]].descriptor.value.previous;
        if previous.Some? && previous.value in world.batches {
          if world.batches[previous.value].sealed {
            PutSame(world, previous.value);
          } else {
            Do(SealBatch(source, previous.value));
          }
        }
      }
    }

    /** Delete what a crash before the pointer swap left: unsealed batches of this source, and undescribed ones. */
    method Sweep(source: Source)
      requires Valid() && Settled(world, source)
      modifies this
      ensures Valid() && old(log) <= log && uuid == old(uuid) && looks == old(looks)
      ensures Swept(old(world), world, source)
    {
      ghost var w := world;
      var rest := world.batches.Keys;
      while rest != {}
        invariant Valid() && old(log) <= log && uuid == old(uuid) && looks == old(looks)
        invariant rest <= world.batches.Keys
        invariant world == w.(batches := world.batches) && Settled(world, source)
        invariant forall id :: id in world.batches <==> id in w.batches && (id in rest || !Leftover(w, source, id))
        invariant forall id | id in world.batches :: world.batches[id] == w.batches[id]
        decreases |rest|
      {
        var id :| id in rest;
        rest := rest - {id};
        if Leftover(world, source, id) {
          SweepSafe(source, id);
          RemoveTree(id);
        }
      }
    }

    /** Delete the active batch's payload directories that no committed event names. */
    method SweepPayloads(id: BatchId)
      requires Valid() && Owned(world, id)
      modifies this
      ensures Valid() && old(log) <= log && uuid == old(uuid) && looks == old(looks)
      ensures var b := old(world.batches)[id];
              world == Put(old(world), id, b.(dirs := set dir | dir in b.dirs && Committed(b, dir)))
    {
      ghost var w := world;
      var b := world.batches[id];
      var rest := b.dirs;
      ghost var kept := rest;
      PutSame(world, id);
      while rest != {}
        invariant Valid() && old(log) <= log && uuid == old(uuid) && looks == old(looks)
        invariant world == Put(w, id, b.(dirs := kept))
        invariant rest <= kept <= b.dirs
        invariant forall dir | dir in b.dirs :: dir in kept <==> dir in rest || Committed(b, dir)
        decreases |rest|
      {
        var dir :| dir in rest;
        rest := rest - {dir};
        if !Committed(b, dir) {
          Do(DropEventDir(id, dir));
          PutPut(w, id, b.(dirs := kept), b.(dirs := kept - {dir}));
          kept := kept - {dir};
        }
      }
      assert kept == set dir | dir in b.dirs && Committed(b, dir);
    }

    /** `_recover`. */
    method Recover(source: Source)
      requires Valid()
      modifies this
      ensures Valid() && old(log) <= log && uuid == old(uuid) && looks == old(looks)
      ensures Recovered(old(world), world, source)
    {
      ghost var w := world;
      FinishRotation(source);
      ghost var w1 := world;
      assert LeftoversUnpublished(w1, source) by { Safe(); SweepSparesHistory(w1, source); }
      Sweep(source);
      RecoveredBySweep(w, w1, world, source);
      if source in world.active {
        ActiveSafe(source);
        ghost var w2 := world;
        assert Sound(w2.batches[w2.active[source]]) by { Safe(); }
        SweepPayloads(world.active[source]);
        RecoveredByPayloads(w, w2, world, source);
      }
    }

    /** A batch of the collector's own is being written; nothing else has changed since. */
    ghost predicate Writing(w: World, id: BatchId)
      reads this
    {
      Valid() && OnlyBatch(w, world, id) && Owned(world, id) && world.batches[id].indexed
    }

    /** Commit one update from the head committed before it. */
    method CommitUpdate(feed: Feed, id: BatchId, product: Product, update: Head, at: int)
      returns (r: Result<(), CaptureError>, ghost e: Event)
      requires Valid() && Owned(world, id) && world.batches[id].indexed && product in world.batches[id].heads
      modifies this
      ensures Valid() && old(log) <= log && OnlyBatch(old(world), world, id) && looks == old(looks) + 1
      ensures r.Failure? ==> world.batches[id] == old(world).batches[id]
      ensures r.Success? ==>
                var b, b' := old(world).batches[id], world.batches[id];
                && b'.events == b.events + [e] && b'.heads == b.heads[product := e.head]
                && TakenWithin(feed, at, old(looks), looks, e, product, b.heads[product], update)
    {
      var previous := world.batches[id].heads[product];
      var made := MakeUpdate(feed.stores(looks), product, previous, update);
      var bytes, overhead := feed.bytes(looks), feed.overhead(looks);
      e := Event(product, Baseline, previous, false, 0, 0, 0);
      if made.Success? { e := EventOf(product, made.value, uuid, at, bytes); }
      ghost var look := looks;
      looks := looks + 1;
      var committed := Append(id, product, made, at, bytes, overhead);
      if committed.Failure? { return Failure(committed.error), e; }
      WithinNow(feed, at, look, look, e, product, previous, update);
      r := Success(());
    }

    /** `es` have been committed for the first of the updates. */
    ghost predicate Taking(feed: Feed, at: int, w: World, id: BatchId, product: Product, lo: nat, updates: seq<Head>,
                           es: seq<Event>)
      reads this
    {
      && Writing(w, id) && lo <= looks
      && Strung(feed, at, lo, looks, product, w.batches[id], world.batches[id], updates, es)
    }

    /** The loop body of `CommitUpdates`. */
    method CommitNext(feed: Feed, id: BatchId, product: Product, updates: seq<Head>, i: nat, at: int,
                      ghost w: World, ghost lo: nat, ghost es: seq<Event>)
      returns (r: Result<(), CaptureError>, ghost es': seq<Event>)
      requires i == |es| < |updates| && Taking(feed, at, w, id, product, lo, updates, es)
      modifies this
      ensures old(log) <= log && Taking(feed, at, w, id, product, lo, updates, es')
      ensures |es'| == if r.Success? then i + 1 else i
    {
      ghost var w1, look := world, looks;
      ghost var e;
      r, e := CommitUpdate(feed, id, product, updates[i], at);
      OnlyBatchTrans(w, w1, world, id);
      OnlyBatchKeepsOwned(w, world, id);
      es' := if r.Success? then es + [e] else es;
      if r.Success? {
        StrungNext(feed, at, lo, look, looks, product, w.batches[id], w1.batches[id], world.batches[id],
            updates, es, e);
      } else {
        StrungLonger(feed, at, lo, look, looks, product, w.batches[id], w1.batches[id], updates, es);
      }
    }

    /**
     Commit a product's updates one after the other, each from the head just committed, up to an
     optional cutoff in publication time. `es` are the events committed.
     */
    method CommitUpdates(feed: Feed, id: BatchId, product: Product, updates: seq<Head>, at: int, cutoff: Option<int>)
      returns (r: Result<(), CaptureError>, ghost es: seq<Event>)
      requires Valid() && Owned(world, id) && world.batches[id].indexed && product in world.batches[id].heads
      modifies this
      ensures old(log) <= log && Taking(feed, at, old(world), id, product, old(looks), updates, es)
      ensures BelowCutOff(updates, |es|, cutoff) && (r.Success? ==> CutOff(updates, |es|, cutoff))
    {
      ghost var w, lo := world, looks;
      PutSame(world, id);
      es := [];
      for i := 0 to |updates|
        invariant old(log) <= log && |es| == i && Taking(feed, at, w, id, product, lo, updates, es)
        invariant BelowCutOff(updates, i, cutoff)
      {
        if cutoff.Some? && updates[i].mtime >= cutoff.value { return Success(()), es; }
        BelowNext(updates, i, cutoff);
        r, es := CommitNext(feed, id, product, updates, i, at, w, lo, es);
        if r.Failure? { return r, es; }
      }
      return Success(()), es;
    }

    /** Open a product's history with a full state. */
    method AddBaseline(feed: Feed, id: BatchId, product: Product, head: Head, at: int)
      returns (r: Result<(), CaptureError>)
      requires Valid() && Owned(world, id) && world.batches[id].indexed && product !in world.batches[id].heads
      modifies this
      ensures Writing(old(world), id) && old(log) <= log && looks == old(looks) + 1
      ensures r.Failure? ==> world.batches[id] == old(world).batches[id]
      ensures r.Success? ==>
                OnlyGained(feed, at, old(looks), looks, product, head, None, true, old(world).batches[id],
                    world.batches[id])
    {
      ghost var w, look := world, looks;
      var made := MakeBaseline(feed.stores(looks), product, head);
      var bytes, overhead := feed.bytes(looks), feed.overhead(looks);
      looks := looks + 1;
      ghost var dir := uuid;
      var committed := Append(id, product, made, at, bytes, overhead);
      OnlyBatchKeepsOwned(w, world, id);
      if committed.Failure? { return Failure(committed.error); }
      BeginsOne(feed, at, look, product, head, None, w.batches[id], world.batches[id],
                EventOf(product, made.value, dir, at, bytes));
      r := Success(());
    }

    /** Ask the source what follows the committed head, and commit the answer up to the cutoff. */
    method Follow(feed: Feed, id: BatchId, product: Product, head: Head, at: int, cutoff: Option<int>)
      returns (r: Result<(), CaptureError>)
      requires Valid() && Owned(world, id) && world.batches[id].indexed && product in world.batches[id].heads
      modifies this
      ensures Writing(old(world), id) && old(log) <= log && old(looks) < looks
      ensures var b, b' := old(world).batches[id], world.batches[id];
              if r.Success? then OnlyGained(feed, at, old(looks), looks, product, head, cutoff, true, b, b')
              else OnlyPart(feed, at, old(looks), looks, product, head, cutoff, b, b')
    {
      ghost var b, look := world.batches[id], looks;
      var previous := world.batches[id].heads[product];
      var updates := AskUpdates(feed, looks, product, previous, head);
      looks := looks + 1;
      if updates.Failure? {
        PutSame(world, id);
        return Failure(updates.error);
      }
      ghost var es;
      r, es := CommitUpdates(feed, id, product, updates.value, at, cutoff);
      MovesOne(feed, at, look, looks, product, head, cutoff, r.Success?, b, world.batches[id], look, updates.value, es);
    }

    /** One product of the catch-up loop: a baseline for a new product, else all updates to its head. */
    method CatchUpProduct(feed: Feed, id: BatchId, product: Product, head: Head, at: int)
      returns (r: Result<(), CaptureError>)
      requires Valid() && Owned(world, id) && world.batches[id].indexed
      modifies this
      ensures Writing(old(world), id) && old(log) <= log && old(looks) < looks
      ensures var b, b' := old(world).batches[id], world.batches[id];
              if r.Success? then OnlyGained(feed, at, old(looks), looks, product, head, None, true, b, b')
              else OnlyPart(feed, at, old(looks), looks, product, head, None, b, b')
    {
      if product !in world.batches[id].heads {
        r := AddBaseline(feed, id, product, head, at);
      } else {
        r := Follow(feed, id, product, head, at, None);
      }
    }

    /** The products in `done` have been worked on since the look `lo`. */
    ghost predicate Working(feed: Feed, at: int, w: World, id: BatchId, lo: nat, heads: map<Product, Head>,
                            cutoff: Option<int>, done: set<Product>)
      reads this
    {
      && Writing(w, id) && lo <= looks
      && Progress(feed, at, lo, looks, heads, cutoff, w.batches[id], world.batches[id], done)
    }

    /** Working on a product failed. */
    ghost predicate Stopped(feed: Feed, at: int, w: World, id: BatchId, lo: nat, heads: map<Product, Head>,
                            cutoff: Option<int>)
      reads this
    {
      && Writing(w, id) && lo <= looks
      && PartProgress(feed, at, lo, looks, heads, cutoff, w.batches[id], world.batches[id])
    }

    /** The loop body of `CatchUp`. */
    method CatchUpNext(feed: Feed, id: BatchId, heads: map<Product, Head>, product: Product, at: int,
                       ghost done: set<Product>, ghost w: World, ghost lo: nat)
      returns (r: Result<(), CaptureError>)
      requires Working(feed, at, w, id, lo, heads, None, done) && product in heads && product !in done
      modifies this
      ensures old(log) <= log && old(looks) <= looks
      ensures if r.Success? then Working(feed, at, w, id, lo, heads, None, done + {product})
              else Stopped(feed, at, w, id, lo, heads, None)
    {
      ghost var w1, look := world, looks;
      r := CatchUpProduct(feed, id, product, heads[product], at);
      OnlyBatchTrans(w, w1, world, id);
      if r.Success? {
        ProgressNext(feed, at, lo, look, looks, heads, None, w.batches[id], w1.batches[id], world.batches[id], done,
            product);
      } else {
        ProgressFails(feed, at, lo, look, looks, heads, None, w.batches[id], w1.batches[id], world.batches[id], done,
            product);
      }
    }

    /** Re-read the source's heads and bring the batch up to them. */
    method CatchUp(feed: Feed, id: BatchId, at: int)
      returns (r: Result<(), CaptureError>, ghost heads: map<Product, Head>)
      requires Valid() && Owned(world, id) && world.batches[id].indexed
      modifies this
      ensures old(log) <= log && old(looks) < looks && Frozen(feed, old(looks), heads)
      ensures if r.Success? then Working(feed, at, old(world), id, old(looks), heads, None, heads.Keys)
              else Stopped(feed, at, old(world), id, old(looks), heads, None)
      ensures r.Success? ==>
                && LiveSource.Heads(feed.stores(old(looks))) == Success(heads)
                && CaughtUp(heads, old(world).batches[id], world.batches[id])
    {
      ghost var w, lo := world, looks;
      PutSame(world, id);
      assert HeadsExact(w.batches[id]) by { Safe(); }
      heads := map[];
      var current := LiveSource.Heads(feed.stores(looks));
      looks := looks + 1;
      if current.Failure? { return Failure(SourceError(current.error)), heads; }
      heads := current.value;
      NoProgress(feed, at, lo, looks, heads, None, w.batches[id], w.batches[id]);
      r := CatchUpAll(feed, id, current.value, at, w, lo);
      if r.Success? { ProgressArrives(feed, at, lo, looks, heads, w.batches[id], world.batches[id]); }
    }

    /** The loop over the products that the source publishes. */
    method CatchUpAll(feed: Feed, id: BatchId, current: map<Product, Head>, at: int, ghost w: World, ghost lo: nat)
      returns (r: Result<(), CaptureError>)
      requires Working(feed, at, w, id, lo, current, None, {})
      modifies this
      ensures old(log) <= log && old(looks) <= looks
      ensures if r.Success? then Working(feed, at, w, id, lo, current, None, current.Keys)
              else Stopped(feed, at, w, id, lo, current, None)
    {
      var products := current.Keys;
      var rest := products;
      assert products - rest == {};
      while rest != {}
        invariant rest <= products && old(log) <= log && old(looks) <= looks
        invariant Working(feed, at, w, id, lo, current, None, products - rest)
        decreases |rest|
      {
        var product :| product in rest;
        r := CatchUpNext(feed, id, current, product, at, products - rest, w, lo);
        if r.Failure? { return; }
        assert products - rest + {product} == products - (rest - {product});
        rest := rest - {product};
      }
      assert products - rest == products;
      r := Success(());
    }

    /** The loop body of `Drain`: what the source answers, up to the start of the new day. */
    method DrainNext(feed: Feed, id: BatchId, frozen: map<Product, Head>, product: Product, start: int, at: int,
                     ghost done: set<Product>, ghost w: World, ghost lo: nat)
      returns (r: Result<(), CaptureError>)
      requires Working(feed, at, w, id, lo, frozen, Some(start), done) && product in w.batches[id].heads
      requires product !in done
      modifies this
      ensures old(log) <= log && old(looks) <= looks
      ensures if r.Success? then Working(feed, at, w, id, lo, frozen, Some(start), done + {product})
              else Stopped(feed, at, w, id, lo, frozen, Some(start))
    {
      ghost var w1, look := world, looks;
      if product !in frozen {
        ProgressSkips(feed, at, lo, look, looks, frozen, Some(start), w.batches[id], w1.batches[id], done, product);
        return Success(());
      }
      assert Stands(feed, at, lo, look, frozen, Some(start), w.batches[id], w1.batches[id], done, product);
      r := Follow(feed, id, product, frozen[product], at, Some(start));
      OnlyBatchTrans(w, w1, world, id);
      ghost var b, b1, b2 := w.batches[id], w1.batches[id], world.batches[id];
      if r.Success? {
        ProgressNext(feed, at, lo, look, looks, frozen, Some(start), b, b1, b2, done, product);
      } else {
        ProgressFails(feed, at, lo, look, looks, frozen, Some(start), b, b1, b2, done, product);
      }
    }

    /** The loop over the products that the old day follows. */
    method DrainAll(feed: Feed, id: BatchId, current: map<Product, Head>, start: int, at: int, ghost w: World,
                    ghost lo: nat)
      returns (r: Result<(), CaptureError>)
      requires Working(feed, at, w, id, lo, current, Some(start), {}) && world.batches[id].heads == w.batches[id].heads
      modifies this
      ensures old(log) <= log && old(looks) <= looks
      ensures if r.Success? then Working(feed, at, w, id, lo, current, Some(start), w.batches[id].heads.Keys)
              else Stopped(feed, at, w, id, lo, current, Some(start))
    {
      var products := world.batches[id].heads.Keys;
      var rest := products;
      assert products - rest == {};
      while rest != {}
        invariant rest <= products && old(log) <= log && old(looks) <= looks
        invariant Working(feed, at, w, id, lo, current, Some(start), products - rest)
        decreases |rest|
      {
        var product :| product in rest;
        r := DrainNext(feed, id, current, product, start, at, products - rest, w, lo);
        if r.Failure? { return; }
        assert products - rest + {product} == products - (rest - {product});
        rest := rest - {product};
      }
      assert products - rest == products;
      r := Success(());
    }

    /**
     Before midnight's rotation: commit late-observed publications of the old day to the old batch.
     Each product it follows gets what its source answers, between the head committed and the head
     read at the first look, as far as it was published before the new day.
     */
    method Drain(feed: Feed, id: BatchId, start: int, at: int)
      returns (r: Result<(), CaptureError>, ghost frozen: map<Product, Head>)
      requires Valid() && Owned(world, id) && world.batches[id].indexed
      modifies this
      ensures Writing(old(world), id) && old(log) <= log && old(looks) < looks
      ensures OldDay(feed, at, old(looks), looks, frozen, start, r.Success?, old(world).batches[id], world.batches[id])
    {
      ghost var w, lo := world, looks;
      frozen := map[];
      var current := LiveSource.Heads(feed.stores(looks));
      looks := looks + 1;
      PutSame(world, id);
      if current.Failure? { return Failure(SourceError(current.error)), frozen; }
      frozen := current.value;
      NoProgress(feed, at, lo, looks, frozen, Some(start), w.batches[id], w.batches[id]);
      r := DrainAll(feed, id, current.value, start, at, w, lo);
    }

    /** A described, indexed and empty batch that no pointer names. */
    method CreateBatch(d: Descriptor) returns (id: BatchId)
      requires Valid() && d.previous == ActiveOf(world, d.source)
      modifies this
      ensures Valid() && old(log) <= log && looks == old(looks)
      ensures id == old(uuid) && id !in old(world.names)
      ensures world == Put(old(world), id,
                NEW_BATCH.(descriptor := Some(d), indexed := true)).(names := old(world.names) + {id})
      ensures id !in old(world.batches) && id !in old(world.published)
      ensures Settled(old(world), d.source) ==> Settled(world, d.source)
    {
      ghost var w := world;
      id := uuid;
      NextName();
      assert NewName(world, d.source, id) by { Safe(); }
      Do(MakeBatch(id));
      Do(DescribeBatch(id, d));
      Do(CreateIndex(id));
      PutPut(w, id, NEW_BATCH, NEW_BATCH.(descriptor := Some(d)));
      PutPut(w, id, NEW_BATCH.(descriptor := Some(d)), NEW_BATCH.(descriptor := Some(d), indexed := true));
    }

    /** One product of a new day. */
    method SeedProduct(feed: Feed, id: BatchId, seeds: map<Product, Head>, product: Product, start: int,
                       ghost done: set<Product>, ghost w: World, ghost lo: nat)
      returns (r: Result<(), CaptureError>)
      requires Working(feed, start, w, id, lo, seeds, None, done) && product in seeds && product !in done
      requires w.batches[id].heads == map[]
      modifies this
      ensures Writing(w, id) && old(log) <= log && old(looks) <= looks
      ensures r.Success? ==> Working(feed, start, w, id, lo, seeds, None, done + {product})
    {
      ghost var w1, look := world, looks;
      assert Stands(feed, start, lo, look, seeds, None, w.batches[id], w1.batches[id], done, product);
      r := AddBaseline(feed, id, product, seeds[product], start);
      OnlyBatchTrans(w, w1, world, id);
      if r.Success? {
        ProgressNext(feed, start, lo, look, looks, seeds, None, w.batches[id], w1.batches[id], world.batches[id], done,
            product);
      }
    }

    /** The new day's baselines, one for each head the old day ended with. */
    method SeedBatch(feed: Feed, id: BatchId, seeds: map<Product, Head>, start: int)
      returns (r: Result<(), CaptureError>)
      requires Valid() && Owned(world, id) && world.batches[id].indexed && world.batches[id].heads == map[]
      modifies this
      ensures Writing(old(world), id) && old(log) <= log && old(looks) <= looks
      ensures r.Success? ==> Working(feed, start, old(world), id, old(looks), seeds, None, seeds.Keys)
    {
      ghost var w, lo := world, looks;
      PutSame(world, id);
      NoProgress(feed, start, lo, lo, seeds, None, w.batches[id], w.batches[id]);
      r := SeedAll(feed, id, seeds, start, w, lo);
    }

    /** The loop over the heads to open with. */
    method SeedAll(feed: Feed, id: BatchId, seeds: map<Product, Head>, start: int, ghost w: World, ghost lo: nat)
      returns (r: Result<(), CaptureError>)
      requires Working(feed, start, w, id, lo, seeds, None, {}) && w.batches[id].heads == map[]
      modifies this
      ensures Writing(w, id) && old(log) <= log && lo <= looks
      ensures r.Success? ==> Working(feed, start, w, id, lo, seeds, None, seeds.Keys)
    {
      var products := seeds.Keys;
      var rest := products;
      assert products - rest == {};
      while rest != {}
        invariant rest <= products && old(log) <= log && Working(feed, start, w, id, lo, seeds, None, products - rest)
        decreases |rest|
      {
        var product :| product in rest;
        r := SeedProduct(feed, id, seeds, product, start, products - rest, w, lo);
        if r.Failure? { return; }
        assert products - rest + {product} == products - (rest - {product});
        rest := rest - {product};
      }
      assert products - rest == products;
      r := Success(());
    }

    /** The batch of the source that is active. */
    ghost function ActiveBatch(source: Source): Option<Batch>
      reads this
    {
      if source in world.active && world.active[source] in world.batches
      then Some(world.batches[world.active[source]]) else None
    }

    /** What the new day's baselines are taken from. */
    method Seeds(feed: Feed) returns (r: Result<map<Product, Head>, CaptureError>)
      requires Valid()
      modifies this`looks
      ensures Valid() && looks >= old(looks)
      ensures feed.identity in world.active <==> ActiveBatch(feed.identity).Some?
      ensures ActiveBatch(feed.identity).Some? ==> r == Success(ActiveBatch(feed.identity).value.heads)
      ensures r.Success? && ActiveBatch(feed.identity).None? ==>
                looks > old(looks) && LiveSource.Heads(feed.stores(old(looks))) == Success(r.value)
    {
      if feed.identity in world.active {
        ActiveSafe(feed.identity);
        r := Success(world.batches[world.active[feed.identity]].heads);
      } else {
        var heads := LiveSource.Heads(feed.stores(looks));
        looks := looks + 1;
        r := if heads.Success? then Success(heads.value) else Failure(SourceError(heads.error));
      }
    }

    /** Build the new day's batch completely, without publishing it; on failure nothing of it remains. */
    method BuildDay(feed: Feed, day: int, start: int) returns (r: Result<BatchId, CaptureError>)
      requires Valid() && Settled(world, feed.identity)
      modifies this
      ensures Valid() && old(log) <= log && Settled(world, feed.identity) && old(looks) <= looks
      ensures r.Failure? ==> world == old(world).(names := world.names)
      ensures r.Success? ==>
                && Built(old(world), world, r.value) && r.value !in old(world.names)
                && world.batches[r.value].descriptor
                     == Some(Descriptor(feed.identity, day, ActiveOf(old(world), feed.identity)))
                && Enabled(world, SwapPointer(feed.identity, r.value))
                && SeededFrom(feed, start, old(looks), looks, old(ActiveBatch(feed.identity)), world.batches[r.value])
    {
      ghost var w, lo := world, looks;
      var seeds := Seeds(feed);
      if seeds.Failure? { return Failure(seeds.error); }
      ghost var mid := looks;
      var id := CreateBatch(Descriptor(feed.identity, day, ActiveOf(world, feed.identity)));
      ghost var w1 := world;
      var seeded := SeedBatch(feed, id, seeds.value, start);
      SettledByOne(w1, world, feed.identity, id);
      BuiltByOne(w, w1, world, id);
      if seeded.Failure? {
        Discard(id, w);
        return Failure(seeded.error);
      }
      ghost var b := world.batches[id];
      ProgressOf(feed, start, mid, looks, seeds.value, None, w1.batches[id], b, NEW_BATCH, b, seeds.value.Keys);
      ProgressOpens(feed, start, mid, looks, seeds.value, NEW_BATCH, b);
      ProgressWider(feed, start, mid, looks, lo, looks, seeds.value, None, NEW_BATCH, b, seeds.value.Keys);
      SwapReady(world, feed.identity, id, seeds.value);
      r := Success(id);
    }

    /** Remove a batch that was never published, as if it had not been built. */
    method Discard(id: BatchId, ghost w: World)
      requires Valid() && Built(w, world, id) && Sweepable(world, id)
      modifies this
      ensures Valid() && old(log) <= log && world == w.(names := world.names) && looks == old(looks)
      ensures forall s | Settled(w, s) :: Settled(world, s)
    {
      ghost var w1 := world;
      RemoveTree(id);
      Undone(w, w1, id, world);
    }

    /**
     The rotation inside `collect`: build the new batch completely, move the pointer, seal the old
     batch. A failure before the pointer has moved leaves the buffer as it was; a failure after it
     has moved leaves the new batch in place. `moved` is the batch the pointer moved to.
     */
    method OpenDay(feed: Feed, day: int, start: int, swap: SwapOutcome)
      returns (r: Result<BatchId, CaptureError>, ghost moved: Option<BatchId>)
      requires Valid() && Settled(world, feed.identity)
      modifies this
      ensures Valid() && old(log) <= log && old(looks) <= looks
      ensures r.Success? ==> moved == Some(r.value)
      ensures moved.Some? ==> DayOpened(old(world), world, feed.identity, moved.value, day, r.Success?)
      ensures moved.Some? ==>
                SeededFrom(feed, start, old(looks), looks, old(ActiveBatch(feed.identity)), world.batches[moved.value])
      ensures moved.None? ==> world == old(world).(names := world.names)
      ensures moved.Some? && r.Failure? ==> swap.RaisedAfter?
    {
      ghost var w := world;
      moved := None;
      var built := BuildDay(feed, day, start);
      if built.Failure? { return built, None; }
      if swap.RaisedBefore? {
        Discard(built.value, w);
        return Failure(PointerRaised), None;
      }
      moved := Some(built.value);
      var sealing := !swap.RaisedAfter?;
      MovePointer(feed.identity, built.value, day, sealing, w);
      r := if sealing then built else Failure(PointerRaised);
    }

    /** The pointer moves to the new batch; then, unless that raised, the old one is sealed. */
    method MovePointer(source: Source, id: BatchId, day: int, sealing: bool, ghost w: World)
      requires Valid() && Built(w, world, id) && id !in w.names && Enabled(world, SwapPointer(source, id))
      requires world.batches[id].descriptor == Some(Descriptor(source, day, ActiveOf(w, source)))
      modifies this
      ensures Valid() && old(log) <= log && looks == old(looks)
      ensures DayOpened(w, world, source, id, day, sealing) && world.batches[id] == old(world).batches[id]
    {
      var previous := ActiveOf(world, source);
      ghost var w1 := world;
      if previous.Some? { ActiveSafe(source); }
      Do(SwapPointer(source, id));
      Opens(w, w1, world, source, id, day);
      if sealing && previous.Some? { Do(SealBatch(source, previous.value)); }
    }

    /** The day of the source's active batch. */
    function ActiveDay(source: Source): Option<int>
      reads this
    {
      var id := ActiveOf(world, source);
      if id.Some? && id.value in world.batches && world.batches[id.value].descriptor.Some?
      then Some(world.batches[id.value].descriptor.value.day) else None
    }

    /** Note that the collector was away for longer than full frames are retained. */
    method NoteAbsence(id: BatchId, at: int)
      requires Valid() && Owned(world, id)
      modifies this`world, this`log
      ensures Valid() && old(log) <= log && OnlyBatch(old(world), world, id)
      ensures var b, b' := old(world).batches[id], world.batches[id];
              b' == b.(gaps := b.gaps + if b.progress.Some? && at - b.progress.value > HISTORY
                                        then {AbsenceGap(b.progress.value)} else {})
    {
      PutSame(world, id);
      var b := world.batches[id];
      if b.progress.Some? && at - b.progress.value > HISTORY { Do(NoteGap(id, AbsenceGap(b.progress.value))); }
    }

    /** The start of `collect`: recover, refuse a clock that went back a day, note a long absence. */
    method Prepare(source: Source, at: int) returns (r: Result<(), CaptureError>)
      requires Valid()
      modifies this
      ensures Valid() && old(log) <= log && Kept(old(world), world) && looks == old(looks)
      ensures Settled(world, source) && SameActive(old(world), world, source) && world.published == old(world.published)
      ensures ActiveDay(source) == old(ActiveDay(source))
      ensures r == if ActiveDay(source).Some? && at / DAY < ActiveDay(source).value then Failure(ClockBackward)
                else Success(())
      ensures r.Success? ==> AbsenceRecorded(old(world), world, source, at)
    {
      ghost var w := world;
      assert PointersValid(w) by { Safe(); }
      Recover(source);
      KeptByRecovery(w, world, source);
      SameActiveByRecovery(w, world, source);
      if source in world.active {
        ActiveSafe(source);
        var id := world.active[source];
        if at / DAY < world.batches[id].descriptor.value.day { return Failure(ClockBackward); }
        ghost var w1 := world;
        NoteAbsence(id, at);
        KeptByOne(w1, world, id);
        KeptTrans(w, w1, world);
        SettledByOne(w1, world, source, id);
      }
      r := Success(());
    }

    /** The old day's drain, if there is an old day. */
    method CloseDay(feed: Feed, at: int) returns (r: Result<(), CaptureError>)
      requires Valid() && Settled(world, feed.identity) && ActiveDay(feed.identity) != Some(at / DAY)
      modifies this
      ensures Valid() && old(log) <= log && Kept(old(world), world) && Settled(world, feed.identity)
      ensures old(looks) <= looks && world.active == old(world).active && world.published == old(world).published
      ensures world.batches.Keys == old(world).batches.Keys
      ensures ActiveDay(feed.identity) == old(ActiveDay(feed.identity))
      ensures DayClosed(feed, old(looks), looks, old(world), world, feed.identity, at, r.Success?)
    {
      ghost var w, lo := world, looks;
      if feed.identity !in world.active { return Success(()); }
      ActiveSafe(feed.identity);
      var id := world.active[feed.identity];
      ghost var frozen;
      r, frozen := Drain(feed, id, at / DAY * DAY, at);
      KeptByOne(w, world, id);
      SettledByOne(w, world, feed.identity, id);
      assert OldDay(feed, at, lo, looks, frozen, at / DAY * DAY, r.Success?, w.batches[id], world.batches[id]);
    }

    /** The middle of `collect`: when the day has changed, or on the first collection, drain and rotate. */
    method Rotate(feed: Feed, at: int, swap: SwapOutcome) returns (r: Result<BatchId, CaptureError>)
      requires Valid() && Settled(world, feed.identity)
      modifies this
      ensures Valid() && old(log) <= log && Kept(old(world), world) && old(looks) <= looks
      ensures r.Success? ==>
                && ActiveOf(world, feed.identity) == Some(r.value) && ActiveDay(feed.identity) == Some(at / DAY)
                && r.value in world.batches
                && NewDay(feed, old(looks), looks, old(world), world, feed.identity, at, r.value,
                     world.batches[r.value])
      ensures r.Success? && old(ActiveDay(feed.identity)) == Some(at / DAY) ==> world == old(world)
      ensures DayClosed(feed, old(looks), looks, old(world), world, feed.identity, at, r.Success?)
      ensures r.Success? && old(ActiveDay(feed.identity)) != Some(at / DAY) ==> r.value !in old(world.batches)
    {
      ghost var w, lo := world, looks;
      var source, day := feed.identity, at / DAY;
      if source in world.active {
        ActiveSafe(source);
        var id := world.active[source];
        if world.batches[id].descriptor.value.day == day { return Success(id); }
      }
      var closed := CloseDay(feed, at);
      if closed.Failure? { return Failure(closed.error); }
      ghost var w1, mid := world, looks;
      ghost var moved;
      r, moved := OpenDay(feed, day, if source in world.active then day * DAY else at, swap);
      if moved.Some? {
        RotatedSo(feed, lo, mid, looks, w, w1, world, at, moved.value, r.Success?);
      } else {
        NotRotated(feed, lo, mid, looks, w, w1, world, at);
      }
    }

    /**
     `collect`. Whatever happens, no published batch loses an event and a long absence is on record.
     `id` is today's batch, if it came to that: the one there was, or one opened with the states that
     the old day ended with. Each product has then taken what its source answered, on success all of
     it up to the head that was read.
     */
    method Collect(feed: Feed, at: int, swap: SwapOutcome)
      returns (r: Result<BatchId, CaptureError>, ghost id: Option<BatchId>, ghost base: Batch,
               ghost heads: map<Product, Head>)
      requires Valid()
      modifies this
      ensures Valid() && old(log) <= log && Kept(old(world), world)
      ensures r.Success? ==>
                && id == Some(r.value) && ActiveDay(feed.identity) == Some(at / DAY)
                && r.value in world.batches && world.batches[r.value].progress == Some(at)
                && CaughtUp(heads, base, world.batches[r.value])
                && exists look: nat ::
                     old(looks) <= look < looks && LiveSource.Heads(feed.stores(look)) == Success(heads)
      ensures id.Some? ==>
                && ActiveOf(world, feed.identity) == id && id.value in world.batches
                && NewDay(feed, old(looks), looks, old(world), world, feed.identity, at, id.value, base)
                && if r.Success?
                   then Progress(feed, at, old(looks), looks, heads, None, base, world.batches[id.value], heads.Keys)
                   else PartProgress(feed, at, old(looks), looks, heads, None, base, world.batches[id.value])
      ensures id.Some? ==> exists look: nat :: old(looks) <= look < looks && Frozen(feed, look, heads)
      ensures old(ActiveDay(feed.identity)).Some? && at / DAY < old(ActiveDay(feed.identity)).value ==>
                r == Failure(ClockBackward)
      ensures r != Failure(ClockBackward) ==>
                && DayClosed(feed, old(looks), looks, old(world), world, feed.identity, at, id.Some?)
                && AbsenceRecorded(old(world), world, feed.identity, at)
    {
      ghost var w, lo := world, looks;
      id, heads, base := None, map[], NEW_BATCH;
      assert PointersValid(w) by { Safe(); }
      r := FindDay(feed, at, swap);
      if r.Failure? { return r, id, base, heads; }
      ghost var w2, mid := world, looks;
      id, base := Some(r.value), world.batches[r.value];
      heads, r := Finish(feed, r.value, at);
      KeptTrans(w, w2, world);
      AbsenceStays(w, w2, world, feed.identity, at);
      CollectedSo(feed, lo, mid, looks, w, w2, world, at, id.value, base);
      if r.Success? {
        ProgressWider(feed, at, mid, looks, lo, looks, heads, None, base, world.batches[id.value], heads.Keys);
      } else {
        PartWider(feed, at, mid, looks, lo, looks, heads, None, base, world.batches[id.value]);
      }
    }

    /** `collect` up to the day's batch: recover, note an absence, and rotate if the day is over. */
    method FindDay(feed: Feed, at: int, swap: SwapOutcome) returns (r: Result<BatchId, CaptureError>)
      requires Valid()
      modifies this
      ensures Valid() && old(log) <= log && Kept(old(world), world) && old(looks) <= looks
      ensures old(ActiveDay(feed.identity)).Some? && at / DAY < old(ActiveDay(feed.identity)).value ==>
                r == Failure(ClockBackward)
      ensures r != Failure(ClockBackward) ==>
                && DayClosed(feed, old(looks), looks, old(world), world, feed.identity, at, r.Success?)
                && AbsenceRecorded(old(world), world, feed.identity, at)
      ensures r.Success? ==>
                && ActiveOf(world, feed.identity) == Some(r.value) && ActiveDay(feed.identity) == Some(at / DAY)
                && r.value in world.batches
                && NewDay(feed, old(looks), looks, old(world), world, feed.identity, at, r.value,
                     world.batches[r.value])
                && (OverDay(old(world), feed.identity, at / DAY) ==> r.value != old(world).active[feed.identity])
    {
      ghost var w, lo := world, looks;
      assert PointersValid(w) by { Safe(); }
      var prepared := Prepare(feed.identity, at);
      if prepared.Failure? { return Failure(prepared.error); }
      ghost var w1 := world;
      r := Rotate(feed, at, swap);
      AbsenceStays(w, w1, world, feed.identity, at);
      KeptTrans(w, w1, world);
      DayClosedFrom(feed, lo, looks, w, w1, world, at, r.Success?);
      if r.Success? { NewDayFrom(feed, lo, looks, w, w1, world, at, r.value, world.batches[r.value]); }
    }

    /** The end of `collect`: catch up and record the time. */
    method Finish(feed: Feed, id: BatchId, at: int)
      returns (ghost heads: map<Product, Head>, r: Result<BatchId, CaptureError>)
      requires Valid() && ActiveOf(world, feed.identity) == Some(id)
      modifies this
      ensures Valid() && old(log) <= log && Kept(old(world), world) && OnlyBatch(old(world), world, id)
      ensures ActiveOf(world, feed.identity) == Some(id) && ActiveDay(feed.identity) == old(ActiveDay(feed.identity))
      ensures old(looks) < looks && Frozen(feed, old(looks), heads)
      ensures r.Success? ==>
                && r.value == id && world.batches[id].progress == Some(at)
                && Progress(feed, at, old(looks), looks, heads, None, old(world).batches[id], world.batches[id],
                     heads.Keys)
                && CaughtUp(heads, old(world).batches[id], world.batches[id])
                && LiveSource.Heads(feed.stores(old(looks))) == Success(heads)
      ensures r.Failure? ==>
                PartProgress(feed, at, old(looks), looks, heads, None, old(world).batches[id], world.batches[id])
    {
      ghost var w, lo := world, looks;
      ActiveSafe(feed.identity);
      var caught;
      caught, heads := CatchUp(feed, id, at);
      KeptByOne(w, world, id);
      if caught.Failure? { return heads, Failure(caught.error); }
      ghost var w2 := world;
      Do(NoteProgress(id, at));
      OnlyBatchTrans(w, w2, world, id);
      KeptByOne(w, world, id);
      ProgressOf(feed, at, lo, looks, heads, None, w.batches[id], w2.batches[id], w.batches[id], world.batches[id],
          heads.Keys);
      r := Success(id);
    }

    /** One source of `retire`: recover, seal the final partial day, and let its pointer go. */
    method RetireSource(source: Source)
      requires Valid() && source in world.active
      modifies this
      ensures Valid() && old(log) <= log && Kept(old(world), world)
      ensures world.active == old(world.active) - {source}
      ensures old(world.active)[source] in world.batches && world.batches[old(world.active)[source]].sealed
    {
      ghost var w := world;
      ActiveSafe(source);
      var id := world.active[source];
      Recover(source);
      KeptByRecovery(w, world, source);
      ActiveSafe(source);
      ghost var w1 := world;
      SealAndDrop(source, id);
      KeptBySeal(w1, source, id);
      KeptTrans(w, w1, world);
    }

    /** Seal the active batch, then let its pointer go. */
    method SealAndDrop(source: Source, id: BatchId)
      requires Valid() && source in world.active && world.active[source] == id && id in world.batches
      requires Settled(world, source)
      modifies this`world, this`log
      ensures Valid() && old(log) <= log
      ensures var sealed := old(world).batches[id].(sealed := true);
              world == Put(old(world), id, sealed).(active := old(world).active - {source})
    {
      Do(SealBatch(source, id));
      Do(DropPointer(source));
    }

    /** `retire`: exactly the sources still served keep their pointer. */
    method Retire(identities: set<Source>)
      requires Valid()
      modifies this
      ensures Valid() && old(log) <= log && Kept(old(world), world)
      ensures world.active == map s | s in old(world.active) && s in identities :: old(world.active)[s]
      ensures forall s | s !in identities :: LetGo(old(world), world, s)
    {
      ghost var w := world;
      assert PointersValid(w) by { Safe(); }
      var rest := world.active.Keys;
      while rest != {}
        invariant rest <= w.active.Keys && old(log) <= log && Retiring(w, identities, rest)
        decreases |rest|
      {
        var source :| source in rest;
        RetireNext(w, identities, rest, source);
        rest := rest - {source};
      }
    }

    ghost predicate Retiring(w: World, identities: set<Source>, rest: set<Source>)
      reads this
    {
      && Valid() && Kept(w, world)
      && world.active == (map s | s in w.active && (s in rest || s in identities) :: w.active[s])
      && forall s | s !in rest && s !in identities :: LetGo(w, world, s)
    }

    /** The loop body of `retire`. */
    method RetireNext(ghost w: World, identities: set<Source>, ghost rest: set<Source>, source: Source)
      requires PointersValid(w) && rest <= w.active.Keys && source in rest
      requires Retiring(w, identities, rest)
      modifies this
      ensures old(log) <= log && Retiring(w, identities, rest - {source})
    {
      if source in identities { return; }
      ghost var w1 := world;
      RetireSource(source);
      KeptTrans(w, w1, world);
      forall s | s !in rest - {source} && s !in identities ensures LetGo(w, world, s) {
        if s != source { StaysLetGo(w, w1, world, s); }
      }
    }
  }

  lemma FreshStep(w: World, a: Action, uuid: nat)
    requires Enabled(w, a)
    requires forall id | id in w.names :: id < uuid
    requires forall id, dir | id in w.batches && dir in w.batches[id].dirs :: dir < uuid
    requires a.MakeBatch? ==> a.id < uuid
    requires a.MakeEventDir? ==> a.dir < uuid
    requires a.ShredBatch? ==> a.remains.dirs == {}
    ensures var w' := Apply(w, a);
            && w'.quota == w.quota
            && (forall id | id in w'.names :: id < uuid)
            && (forall id, dir | id in w'.batches && dir in w'.batches[id].dirs :: dir < uuid)
  {}

  lemma SameUsage(batches: map<BatchId, Batch>, id: BatchId, b: Batch)
    requires id in batches && batches[id].usage == b.usage
    ensures TotalUsage(batches[id := b]) == TotalUsage(batches)
  {
    UsageUpdate(batches, id, b);
  }

  lemma PutPut(w: World, id: BatchId, b: Batch, b': Batch)
    ensures Put(Put(w, id, b), id, b') == Put(w, id, b')
  {
    assert w.batches[id := b][id := b'] == w.batches[id := b'];
  }

  lemma PutSame(w: World, id: BatchId)
    requires id in w.batches
    ensures Put(w, id, w.batches[id]) == w
  {
    assert w.batches[id := w.batches[id]] == w.batches;
  }

  lemma Dropped(w: World, id: BatchId, dir: Dir)
    requires id in w.batches && dir !in w.batches[id].dirs
    ensures var made := w.batches[id].(dirs := w.batches[id].dirs + {dir});
            Put(Put(w, id, made), id, made.(dirs := made.dirs - {dir})) == w
  {
    var made := w.batches[id].(dirs := w.batches[id].dirs + {dir});
    assert made.dirs - {dir} == w.batches[id].dirs;
    assert w.batches[id := made][id := w.batches[id]] == w.batches;
  }

  lemma NotCommitted(dir: Dir, w: World, id: BatchId)
    requires AllSound(w) && id in w.batches && w.batches[id].whole && dir !in w.batches[id].dirs
    ensures !Committed(w.batches[id], dir)
  {
    assert Sound(w.batches[id]);
  }

  lemma SettledByOne(w: World, w': World, source: Source, id: BatchId)
    requires OnlyBatch(w, w', id) && Settled(w, source)
    ensures Settled(w', source)
  {}

  lemma Undone(w: World, w1: World, id: BatchId, w': World)
    requires Built(w, w1, id) && w' == w1.(batches := w1.batches - {id})
    ensures w' == w.(names := w1.names)
  {
    assert w'.batches == w.batches;
  }
}
