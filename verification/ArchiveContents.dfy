/** What the batches hold, in every reachable state: replayable histories, exact accounting, kept alarms. */
module ArchiveContents {
  import opened Wrappers
  import opened LiveSource
  import opened ArchiveModel
  import opened ArchiveSafety
  import opened ArchiveTheorems

  // ----- Histories -----

  /** The newest event of a product. */
  function LastOf(events: seq<Event>, product: Product): Option<Event> {
    if events == [] then None
    else if events[|events| - 1].product == product then Some(events[|events| - 1])
    else LastOf(events[..|events| - 1], product)
  }

  /** One product's events, in order. */
  function OfProduct(events: seq<Event>, product: Product): seq<Event> {
    if events == [] then []
    else
      var before, last := OfProduct(events[..|events| - 1], product), events[|events| - 1];
      if last.product == product then before + [last] else before
  }

  lemma OfProductAppend(events: seq<Event>, e: Event, product: Product)
    ensures OfProduct(events + [e], product) ==
            if e.product == product then OfProduct(events, product) + [e] else OfProduct(events, product)
  {
    assert (events + [e])[..|events|] == events;
  }

  lemma {:induction false} OfProductExtend(events: seq<Event>, more: seq<Event>, product: Product, p: Product)
    requires forall i | 0 <= i < |more| :: more[i].product == product
    ensures OfProduct(events + more, p) == if p == product then OfProduct(events, p) + more else OfProduct(events, p)
    decreases |more|
  {
    if more == [] {
      assert events + more == events;
    } else {
      var last := |more| - 1;
      OfProductExtend(events, more[..last], product, p);
      assert events + more == (events + more[..last]) + [more[last]];
      OfProductAppend(events + more[..last], more[last], p);
      assert more == more[..last] + [more[last]];
    }
  }

  /** The newest and the oldest event are the ends of the product's own history. */
  lemma {:induction false} EndsOfProduct(events: seq<Event>, product: Product)
    ensures var h := OfProduct(events, product);
            && LastOf(events, product) == (if h == [] then None else Some(h[|h| - 1]))
            && FirstEvent(events, product) == (if h == [] then None else Some(h[0]))
  {
    if events != [] { EndsOfProduct(events[..|events| - 1], product); }
  }

  /**
   The event can be replayed on what came before it: a baseline opens the product's history or
   resumes it after a gap, and a delta starts from exactly the version the history has reached.
   */
  ghost predicate Replayable(before: seq<Event>, e: Event) {
    var last := LastOf(before, e.product);
    match e.kind
    case Baseline => last.None? || e.gap
    case Delta(base) => last.Some? && last.value.head.version == base
    case Replacement => last.Some?
  }

  ghost predicate History(events: seq<Event>) {
    events == [] || (History(events[..|events| - 1]) && Replayable(events[..|events| - 1], events[|events| - 1]))
  }

  function Bytes(events: seq<Event>): nat {
    if events == [] then 0 else Bytes(events[..|events| - 1]) + events[|events| - 1].bytes
  }

  /** The heads table names the newest head of every product that has events, and no other. */
  ghost predicate HeadsExact(b: Batch) {
    forall p :: if p in b.heads then LastOf(b.events, p).Some? && LastOf(b.events, p).value.head == b.heads[p]
                else LastOf(b.events, p).None?
  }

  ghost predicate DirsKept(b: Batch) {
    && (forall i | 0 <= i < |b.events| :: b.events[i].dir in b.dirs)
    && (forall i, j | 0 <= i < j < |b.events| :: b.events[i].dir != b.events[j].dir)
  }

  ghost predicate GapsKept(b: Batch) {
    forall i | 0 <= i < |b.events| && b.events[i].gap ::
      EventGap(b.events[i].product, b.events[i].head.version) in b.gaps
  }

  ghost predicate Sound(b: Batch) {
    History(b.events) && HeadsExact(b) && b.usage == Bytes(b.events) && DirsKept(b) && GapsKept(b)
  }

  lemma SoundAppend(b: Batch, e: Event)
    requires Sound(b) && Joins(b, e) && e.dir in b.dirs && !Committed(b, e.dir)
    requires e.gap ==> EventGap(e.product, e.head.version) in b.gaps
    ensures Sound(b.(events := b.events + [e], heads := b.heads[e.product := e.head], usage := b.usage + e.bytes))
  {
    var b' := b.(events := b.events + [e], heads := b.heads[e.product := e.head], usage := b.usage + e.bytes);
    assert b'.events[..|b.events|] == b.events;
  }

  // ----- In every reachable state -----

  ghost predicate AllSound(w: World) {
    && (forall id | id in w.batches && w.batches[id].whole :: Sound(w.batches[id]))
    && (forall id | id in w.departed :: Sound(w.departed[id].copy))
    && (w.worker.Stored? || w.worker.Verified? ==> Sound(w.worker.copy))
  }

  /** The copy lacks no alarm of the batch but, at most, the one that is written without the lock. */
  ghost predicate AlarmsCopied(b: Batch, copy: Batch) { copy.gaps <= b.gaps <= copy.gaps + {RetirementGap} }

  ghost predicate AlarmsArchived(w: World) {
    && (w.worker.Stored? || w.worker.Verified? ==>
          w.worker.id in w.batches && AlarmsCopied(w.batches[w.worker.id], w.worker.copy))
    && (forall id | id in w.departed :: AlarmsCopied(w.departed[id].last, w.departed[id].copy))
  }

  /** The tables are as they were, no alarm is lost, and no directory an event names. */
  ghost predicate SameTables(b: Batch, b': Batch) {
    && b'.events == b.events && b'.heads == b.heads && b'.usage == b.usage && b.gaps <= b'.gaps
    && (b.whole ==> b'.whole)
    && (forall dir | dir in b.dirs && Committed(b, dir) :: dir in b'.dirs)
  }

  /** What one write can do to one directory under `batches/`. */
  lemma BatchStep(w: World, a: Action, id: BatchId)
    requires Enabled(w, a) && id in Apply(w, a).batches
    ensures var b' := Apply(w, a).batches[id];
            || (a.CommitEvent? && a.id == id)
            || !b'.whole
            || (id in w.batches && w.batches[id].whole && SameTables(w.batches[id], b'))
            || (id !in w.names && b' == NEW_BATCH)
  {}

  lemma SameTablesSound(b: Batch, b': Batch)
    requires Sound(b) && SameTables(b, b')
    ensures Sound(b')
  {
    forall i | 0 <= i < |b'.events| ensures b'.events[i].dir in b'.dirs {
      assert Committed(b, b.events[i].dir);
    }
  }

  lemma SoundStep(w: World, a: Action)
    requires Inv(w) && AllSound(w) && Enabled(w, a)
    ensures AllSound(Apply(w, a))
  {
    var w' := Apply(w, a);
    forall id | id in w'.batches && w'.batches[id].whole ensures Sound(w'.batches[id]) {
      SoundBatchStep(w, a, id);
    }
    if a.StoreCopy? { assert Intact(w, w.worker.id); }
  }

  /** A batch on its way to the archive gains no alarm under the lock. */
  lemma ChosenKeepsAlarms(w: World, a: Action)
    requires Inv(w) && Enabled(w, a) && !w.worker.Resting? && !a.MoveAway?
    ensures var w', id := Apply(w, a), w.worker.id;
            id in w'.batches && w.batches[id].gaps <= w'.batches[id].gaps <= w.batches[id].gaps + {RetirementGap}
  {
    if a.ShredBatch? || a.RemoveBatch? { SweepSparesPublished(w, a.id); }
  }

  lemma AlarmsStep(w: World, a: Action)
    requires Inv(w) && AlarmsArchived(w) && Enabled(w, a)
    ensures AlarmsArchived(Apply(w, a))
  {
    if !w.worker.Resting? && !a.MoveAway? { ChosenKeepsAlarms(w, a); }
  }

  lemma SoundBatchStep(w: World, a: Action, id: BatchId)
    requires AllSound(w) && Enabled(w, a) && id in Apply(w, a).batches && Apply(w, a).batches[id].whole
    ensures Sound(Apply(w, a).batches[id])
  {
    var b' := Apply(w, a).batches[id];
    BatchStep(w, a, id);
    if a.CommitEvent? && a.id == id {
      SoundAppend(w.batches[id], a.event);
    } else if id in w.batches && w.batches[id].whole && SameTables(w.batches[id], b') {
      SameTablesSound(w.batches[id], b');
    }
  }

  // ----- Days follow one another -----

  /**
   A published batch's contents, wherever they are now: in the buffer, or the verified copy it left on
   the strength of.
   */
  function ContentOf(w: World, id: BatchId): Batch
    requires id in w.departed || id in w.batches
  {
    if id in w.departed then w.departed[id].copy else w.batches[id]
  }

  /** The predecessor is finished: no pointer names it again. */
  ghost predicate Finished(w: World, id: BatchId) {
    id in w.published && forall s | s in w.active :: w.active[s] != id
  }

  ghost predicate Follows(w: World, id: BatchId)
    requires PublishedHeld(w) && id in w.published
  {
    var d := ContentOf(w, id).descriptor;
    d.Some? && d.value.previous.Some? ==>
      Finished(w, d.value.previous.value)
      && Continues(ContentOf(w, d.value.previous.value), ContentOf(w, id))
  }

  ghost predicate DaysFollow(w: World) {
    PublishedHeld(w) && forall id | id in w.published :: Follows(w, id)
  }

  lemma {:induction false} FirstEventStable(events: seq<Event>, e: Event, p: Product)
    requires FirstEvent(events, p).Some?
    ensures FirstEvent(events + [e], p) == FirstEvent(events, p)
  {
    assert (events + [e])[..|events|] == events;
  }

  lemma ContinuesStable(before: Batch, after: Batch, e: Event)
    requires Continues(before, after)
    ensures Continues(before, after.(events := after.events + [e]))
  {
    forall p | p in before.heads { FirstEventStable(after.events, e, p); }
  }

  /** Published contents keep their descriptor and only grow, by events committed to the active batch. */
  ghost predicate Grown(w: World, a: Action, id: BatchId, b: Batch, b': Batch) {
    && b'.descriptor == b.descriptor
    && ((b'.events == b.events && b'.heads == b.heads)
        || (a.CommitEvent? && a.id == id && !Finished(w, id) && b'.events == b.events + [a.event]))
  }

  lemma ContentStep(w: World, a: Action, id: BatchId)
    requires Inv(w) && Enabled(w, a) && id in w.published
    ensures var w' := Apply(w, a);
            (id in w'.departed || id in w'.batches) && Grown(w, a, id, ContentOf(w, id), ContentOf(w', id))
  {
    if a.ShredBatch? || a.RemoveBatch? { SweepSparesPublished(w, a.id); }
    if id in w.departed { DepartedContent(w, a, id); } else { HeldContent(w, a, id); }
  }

  lemma DepartedContent(w: World, a: Action, id: BatchId)
    requires WorkerSound(w) && Enabled(w, a) && id in w.departed
    ensures id in Apply(w, a).departed && Apply(w, a).departed[id] == w.departed[id]
  {}

  lemma HeldContent(w: World, a: Action, id: BatchId)
    requires Enabled(w, a) && WorkerSound(w) && id in w.published && id in w.names && id !in w.departed
    requires id in w.batches
    requires a.ShredBatch? || a.RemoveBatch? ==> a.id != id
    ensures var w' := Apply(w, a);
            (id in w'.departed || id in w'.batches) && Grown(w, a, id, w.batches[id], ContentOf(w', id))
  {
    if a.CommitEvent? && a.id == id {
      var source := w.batches[id].descriptor.value.source;
      assert source in w.active && w.active[source] == id;
    }
  }

  /** A finished day does not change, and a day that only grows goes on continuing it. */
  lemma StillContinues(w: World, a: Action, p: BatchId, id: BatchId, before: Batch, before': Batch, after: Batch,
                       after': Batch)
    requires Continues(before, after) && Grown(w, a, p, before, before') && Grown(w, a, id, after, after')
    requires Finished(w, p)
    ensures Continues(before', after')
  {
    if after'.events != after.events {
      ContinuesStable(before, after, a.event);
    }
  }

  lemma FollowsKept(w: World, w': World, a: Action, id: BatchId)
    requires PublishedHeld(w) && PublishedHeld(w') && id in w.published && id in w'.published && Follows(w, id)
    requires Grown(w, a, id, ContentOf(w, id), ContentOf(w', id))
    requires var d := ContentOf(w, id).descriptor;
             d.Some? && d.value.previous.Some? ==>
               var p := d.value.previous.value;
               Finished(w', p) && Grown(w, a, p, ContentOf(w, p), ContentOf(w', p))
    ensures Follows(w', id)
  {
    var d := ContentOf(w, id).descriptor;
    if d.Some? && d.value.previous.Some? {
      var p := d.value.previous.value;
      StillContinues(w, a, p, id, ContentOf(w, p), ContentOf(w', p), ContentOf(w, id), ContentOf(w', id));
    }
  }

  lemma PreviousStep(w: World, a: Action, p: BatchId)
    requires Inv(w) && Enabled(w, a) && p in w.published && Finished(w, p)
    ensures var w' := Apply(w, a); Finished(w', p) && Grown(w, a, p, ContentOf(w, p), ContentOf(w', p))
  {
    ContentStep(w, a, p);
    PointersMoveOn(w, a, p);
  }

  lemma FollowsStep(w: World, w': World, a: Action, id: BatchId)
    requires Inv(w) && Enabled(w, a) && w' == Apply(w, a) && PublishedHeld(w')
    requires id in w.published && id in w'.published && Follows(w, id)
    ensures Follows(w', id)
  {
    assert Grown(w, a, id, ContentOf(w, id), ContentOf(w', id)) by { ContentStep(w, a, id); }
    var d := ContentOf(w, id).descriptor;
    if d.Some? && d.value.previous.Some? { PreviousStep(w, a, d.value.previous.value); }
    FollowsKept(w, w', a, id);
  }

  lemma DaysFollowStep(w: World, a: Action)
    requires Inv(w) && DaysFollow(w) && Enabled(w, a)
    ensures DaysFollow(Apply(w, a))
  {
    var w' := Apply(w, a);
    InvStep(w, a);
    forall id | id in w'.published ensures Follows(w', id) {
      if id in w.published {
        FollowsStep(w, w', a, id);
      } else {
        NewDayFollows(w, a.source, id);
      }
    }
  }

  lemma NewDayFollows(w: World, source: Source, id: BatchId)
    requires Inv(w) && Enabled(w, SwapPointer(source, id)) && PublishedHeld(Apply(w, SwapPointer(source, id)))
    ensures Follows(Apply(w, SwapPointer(source, id)), id)
  {
    if source in w.active { assert w.active[source] !in w.departed; }
  }

  // ----- Accounting -----

  lemma {:induction false} UsageWithout(batches: map<BatchId, Batch>, id: BatchId)
    requires id in batches
    ensures TotalUsage(batches) == batches[id].usage + TotalUsage(batches - {id})
    decreases |batches|
  {
    var pick :| pick in batches && TotalUsage(batches) == batches[pick].usage + TotalUsage(batches - {pick});
    if pick != id {
      UsageWithout(batches - {pick}, id);
      assert batches - {pick} - {id} == batches - {id} - {pick};
      UsageWithout(batches - {id}, pick);
    }
  }

  lemma UsageUpdate(batches: map<BatchId, Batch>, id: BatchId, b: Batch)
    ensures TotalUsage(batches[id := b]) + (if id in batches then batches[id].usage else 0)
         == TotalUsage(batches) + b.usage
  {
    UsageWithout(batches[id := b], id);
    assert batches[id := b] - {id} == batches - {id};
    if id in batches {
      UsageWithout(batches, id);
    } else {
      assert batches - {id} == batches;
    }
  }

  lemma QuotaStep(w: World, a: Action)
    requires Enabled(w, a) && TotalUsage(w.batches) <= w.quota
    ensures Apply(w, a).quota == w.quota && TotalUsage(Apply(w, a).batches) <= w.quota
  {
    var w' := Apply(w, a);
    if a.MoveAway? || a.RemoveBatch? {
      UsageWithout(w.batches, if a.MoveAway? then w.worker.id else a.id);
    } else if w'.batches != w.batches {
      UsageUpdate(w.batches, a.id, w'.batches[a.id]);
      assert w'.batches == w.batches[a.id := w'.batches[a.id]];
    }
  }

  // ----- The promises, over every run -----

  lemma {:induction false} RunContents(quota: nat, run: seq<Action>)
    requires IsRun(Initial(quota), run)
    ensures var w := After(Initial(quota), run);
            Inv(w) && AllSound(w) && AlarmsArchived(w) && DaysFollow(w) && w.quota == quota
            && TotalUsage(w.batches) <= quota
    decreases |run|
  {
    if run == [] {
      InitialInv(quota);
    } else {
      var w, a := After(Initial(quota), run[..|run| - 1]), run[|run| - 1];
      RunContents(quota, run[..|run| - 1]);
      InvStep(w, a);
      SoundStep(w, a);
      AlarmsStep(w, a);
      DaysFollowStep(w, a);
      QuotaStep(w, a);
    }
  }

  /**
   In every reachable state the history of every batch, in the buffer or as archived, can be replayed;
   its heads are its last events; its recorded usage is the bytes of its events; each event's
   directory is there; and every gap has its record beside it.
   */
  lemma BatchesAreSound(quota: nat, run: seq<Action>, id: BatchId)
    requires IsRun(Initial(quota), run) && id in After(Initial(quota), run).published
    ensures var w := After(Initial(quota), run);
            (id in w.departed || id in w.batches) && Sound(ContentOf(w, id))
  {
    RunContents(quota, run);
  }

  /** What was archived of a departed batch is all it held, but for the one alarm that is written without the lock. */
  lemma ArchiveMissesAtMostOneAlarm(quota: nat, run: seq<Action>, id: BatchId)
    requires IsRun(Initial(quota), run) && id in After(Initial(quota), run).departed
    ensures var d := After(Initial(quota), run).departed[id];
            Core(d.copy) == Core(d.last) && d.copy.gaps <= d.last.gaps <= d.copy.gaps + {RetirementGap}
  {
    RunContents(quota, run);
  }

  /** Every new day opens, for each product, at the previous day's final version, or carries a gap. */
  lemma DaysAreContinuous(quota: nat, run: seq<Action>, id: BatchId, p: Product)
    requires IsRun(Initial(quota), run) && id in After(Initial(quota), run).published
    ensures var w := After(Initial(quota), run);
            (id in w.departed || id in w.batches)
            && var d := ContentOf(w, id).descriptor;
            d.Some? && d.value.previous.Some? ==>
              var before := d.value.previous.value;
              (before in w.departed || before in w.batches)
              && var last := LastOf(ContentOf(w, before).events, p);
              last.Some? ==>
                var first := FirstEvent(ContentOf(w, id).events, p);
                first.Some? && (first.value.head.version == last.value.head.version || first.value.gap)
  {
    RunContents(quota, run);
    var w := After(Initial(quota), run);
    assert Follows(w, id);
    var d := ContentOf(w, id).descriptor;
    if d.Some? && d.value.previous.Some? { assert Sound(ContentOf(w, d.value.previous.value)); }
  }

  /** The committed payload of the whole buffer never exceeds the quota. */
  lemma QuotaHolds(quota: nat, run: seq<Action>)
    requires IsRun(Initial(quota), run)
    ensures TotalUsage(After(Initial(quota), run).batches) <= quota
  {
    RunContents(quota, run);
  }
}
