/** What every durable write keeps, and what therefore holds of every run of the archive. */
module ArchiveSafety {
  import opened Wrappers
  import opened ArchiveModel

  // ----- Invariants of the buffer -----

  /** A published batch is intact until it has departed. */
  ghost predicate Intact(w: World, id: BatchId) {
    && id in w.batches && w.batches[id].whole && w.batches[id].indexed && w.batches[id].descriptor.Some?
  }

  ghost predicate PointersValid(w: World) {
    forall s | s in w.active ::
      && w.active[s] in w.published && w.active[s] !in w.departed
      && Intact(w, w.active[s]) && w.batches[w.active[s]].descriptor.value.source == s
  }

  ghost predicate PublishedHeld(w: World) {
    && (forall id | id in w.published :: id in w.names && (id in w.departed || Intact(w, id)))
    && (forall id | id in w.batches :: id in w.names)
    && (forall id | id in w.departed :: id in w.published)
    && (forall id | id in w.departed && id in w.batches ::
          !w.batches[id].whole && w.batches[id].descriptor.None?)
  }

  /** The batch is the active one of its source, or the one that was opened after. */
  ghost predicate Current(w: World, id: BatchId)
    requires id in w.batches
  {
    var d := w.batches[id].descriptor;
    d.Some? && (ActiveOf(w, d.value.source) == Some(id) || PreviousOf(w, d.value.source) == Some(id))
  }

  /** Only the active batch and the one it was opened after can still be open. */
  ghost predicate OpenIsCurrent(w: World) {
    && (forall id | id in w.published && id in w.batches && id !in w.departed && !w.batches[id].sealed ::
          Current(w, id))
    && (forall id | id in w.batches && w.batches[id].sealed :: id in w.published)
  }

  /** A batch's predecessor was published before it, from the same source. */
  ghost predicate PreviousPublished(w: World) {
    forall id | id in w.batches && w.batches[id].descriptor.Some? && w.batches[id].descriptor.value.previous.Some? ::
      w.batches[id].descriptor.value.previous.value in w.published
  }

  ghost predicate WorkerSound(w: World) {
    !w.worker.Resting? ==>
      var id := w.worker.id;
      && id in w.published && id !in w.departed && id in w.batches && w.batches[id].sealed
      && w.batches[id].descriptor.Some?
      && ActiveOf(w, w.batches[id].descriptor.value.source) != Some(id)
      && (!w.worker.Chosen? ==>
            && Core(w.worker.copy) == Core(w.batches[id])
            && w.repository != [] && w.repository[|w.repository| - 1] == (id, w.worker.copy))
  }

  ghost predicate DeparturesVerified(w: World) {
    forall id | id in w.departed :: Core(w.departed[id].last) == Core(w.departed[id].copy)
  }

  ghost predicate Inv(w: World) {
    && PointersValid(w) && PublishedHeld(w) && OpenIsCurrent(w) && PreviousPublished(w)
    && WorkerSound(w) && DeparturesVerified(w)
  }

  lemma InitialInv(quota: nat)
    ensures Inv(Initial(quota))
  {}

  // ----- Preserved by every write -----

  /** The new contents are those of the same batch, no less indexed and no less sealed. */
  ghost predicate SameBatch(b: Batch, b': Batch) {
    && b'.descriptor == b.descriptor && b'.whole == b.whole
    && (b.indexed ==> b'.indexed) && (b.sealed ==> b'.sealed)
  }

  /** Writes inside one batch that keep its identity, and touch no batch the worker is storing. */
  lemma EditInv(w: World, id: BatchId, b: Batch)
    requires Inv(w) && id in w.batches && SameBatch(w.batches[id], b)
    requires b.sealed ==> id in w.published
    requires Core(b) == Core(w.batches[id]) || w.worker.Resting? || w.worker.id != id
    ensures Inv(Put(w, id, b))
  {
    EditHeld(w, id, b);
    EditOpen(w, id, b);
    EditWorker(w, id, b);
  }

  lemma EditHeld(w: World, id: BatchId, b: Batch)
    requires PointersValid(w) && PublishedHeld(w) && PreviousPublished(w)
    requires id in w.batches && SameBatch(w.batches[id], b)
    ensures PointersValid(Put(w, id, b)) && PublishedHeld(Put(w, id, b)) && PreviousPublished(Put(w, id, b))
  {}

  lemma EditOpen(w: World, id: BatchId, b: Batch)
    requires OpenIsCurrent(w)
    requires id in w.batches && SameBatch(w.batches[id], b) && (b.sealed ==> id in w.published)
    ensures OpenIsCurrent(Put(w, id, b))
  {
    var w' := Put(w, id, b);
    forall i | i in w'.published && i in w'.batches && i !in w'.departed && !w'.batches[i].sealed
      ensures Current(w', i)
    {
      assert Current(w, i);
    }
  }

  lemma EditWorker(w: World, id: BatchId, b: Batch)
    requires WorkerSound(w)
    requires id in w.batches && SameBatch(w.batches[id], b)
    requires Core(b) == Core(w.batches[id]) || w.worker.Resting? || w.worker.id != id
    ensures WorkerSound(Put(w, id, b))
  {}

  // ----- Sweeping -----

  /** Nothing that matters refers to the batch: no pointer, no worker, and no publication still held by it. */
  ghost predicate Detached(w: World, id: BatchId) {
    && (id in w.published ==> id in w.departed)
    && (w.worker.Resting? || w.worker.id != id)
    && (forall s | s in w.active :: w.active[s] != id)
  }

  /** A recovery sweep reaches only batches that were never published, or remnants of departed ones. */
  lemma SweepSparesPublished(w: World, id: BatchId)
    requires Inv(w) && Sweepable(w, id)
    ensures Detached(w, id)
    ensures id in w.published ==> w.batches[id].descriptor.None?
  {}

  lemma RemoveInv(w: World, id: BatchId)
    requires Inv(w) && Detached(w, id)
    ensures Inv(w.(batches := w.batches - {id}))
  {
    RemoveHeld(w, id);
    RemoveOpen(w, id);
  }

  lemma RemoveHeld(w: World, id: BatchId)
    requires PointersValid(w) && PublishedHeld(w) && PreviousPublished(w) && Detached(w, id)
    ensures var w' := w.(batches := w.batches - {id}); PointersValid(w') && PublishedHeld(w') && PreviousPublished(w')
  {}

  lemma RemoveOpen(w: World, id: BatchId)
    requires OpenIsCurrent(w) && Detached(w, id)
    ensures OpenIsCurrent(w.(batches := w.batches - {id}))
  {
    var w' := w.(batches := w.batches - {id});
    forall i | i in w'.published && i in w'.batches && i !in w'.departed && !w'.batches[i].sealed
      ensures Current(w', i)
    {
      assert Current(w, i);
    }
  }

  /** A directory nothing refers to appears or changes. */
  lemma LooseInv(w: World, id: BatchId, b: Batch)
    requires Inv(w) && Detached(w, id) && !b.sealed
    requires id in w.departed ==> !b.whole && b.descriptor.None?
    requires b.descriptor.Some? && b.descriptor.value.previous.Some? ==>
               b.descriptor.value.previous.value in w.published
    ensures Inv(Put(w, id, b).(names := w.names + {id}))
  {
    LooseHeld(w, id, b);
    LooseOpen(w, id, b);
  }

  lemma LooseHeld(w: World, id: BatchId, b: Batch)
    requires PointersValid(w) && PublishedHeld(w) && PreviousPublished(w) && Detached(w, id)
    requires id in w.departed ==> !b.whole && b.descriptor.None?
    requires b.descriptor.Some? && b.descriptor.value.previous.Some? ==>
               b.descriptor.value.previous.value in w.published
    ensures var w' := Put(w, id, b).(names := w.names + {id});
            PointersValid(w') && PublishedHeld(w') && PreviousPublished(w')
  {}

  lemma LooseOpen(w: World, id: BatchId, b: Batch)
    requires OpenIsCurrent(w) && Detached(w, id) && !b.sealed
    ensures OpenIsCurrent(Put(w, id, b).(names := w.names + {id}))
  {
    var w' := Put(w, id, b).(names := w.names + {id});
    forall i | i in w'.published && i in w'.batches && i !in w'.departed && !w'.batches[i].sealed
      ensures Current(w', i)
    {
      assert Current(w, i);
    }
  }

  // ----- Pointers -----

  lemma SwapInv(w: World, source: Source, id: BatchId)
    requires Inv(w) && Enabled(w, SwapPointer(source, id))
    ensures Inv(Apply(w, SwapPointer(source, id)))
  {
    SwapHeld(w, source, id);
    SwapOpen(w, source, id);
  }

  lemma SwapHeld(w: World, source: Source, id: BatchId)
    requires PointersValid(w) && PublishedHeld(w) && PreviousPublished(w) && WorkerSound(w)
    requires Enabled(w, SwapPointer(source, id))
    ensures var w' := Apply(w, SwapPointer(source, id));
            PointersValid(w') && PublishedHeld(w') && PreviousPublished(w') && WorkerSound(w')
  {}

  /**
   Before a swap the active batch is the only open one, so after it the open ones are the new batch
   and its predecessor.
   */
  lemma SwapOpen(w: World, source: Source, id: BatchId)
    requires OpenIsCurrent(w) && PointersValid(w) && Enabled(w, SwapPointer(source, id))
    ensures OpenIsCurrent(Apply(w, SwapPointer(source, id)))
  {
    var w' := Apply(w, SwapPointer(source, id));
    forall i | i in w'.published && i in w'.batches && i !in w'.departed && !w'.batches[i].sealed
      ensures Current(w', i)
    {
      if i != id { assert Current(w, i); }
    }
  }

  lemma DropInv(w: World, source: Source)
    requires Inv(w) && Enabled(w, DropPointer(source))
    ensures Inv(Apply(w, DropPointer(source)))
  {
    DropOpen(w, source);
    DropHeld(w, source);
  }

  lemma DropHeld(w: World, source: Source)
    requires PointersValid(w) && PublishedHeld(w) && PreviousPublished(w) && WorkerSound(w)
    requires Enabled(w, DropPointer(source))
    ensures var w' := Apply(w, DropPointer(source));
            PointersValid(w') && PublishedHeld(w') && PreviousPublished(w') && WorkerSound(w')
  {}

  lemma DropOpen(w: World, source: Source)
    requires OpenIsCurrent(w) && Enabled(w, DropPointer(source))
    ensures OpenIsCurrent(Apply(w, DropPointer(source)))
  {
    var w' := Apply(w, DropPointer(source));
    forall i | i in w'.published && i in w'.batches && i !in w'.departed && !w'.batches[i].sealed
      ensures Current(w', i)
    {
      assert Current(w, i);
    }
  }

  // ----- The worker -----

  /** The check the worker made without the collector's lock still holds when it moves the batch away. */
  lemma MoveInv(w: World)
    requires Inv(w) && Enabled(w, MoveAway)
    ensures Inv(Apply(w, MoveAway))
  {
    MoveHeld(w);
    MoveOpen(w);
  }

  lemma MoveHeld(w: World)
    requires PointersValid(w) && PublishedHeld(w) && PreviousPublished(w) && WorkerSound(w) && Enabled(w, MoveAway)
    ensures var w' := Apply(w, MoveAway); PointersValid(w') && PublishedHeld(w') && PreviousPublished(w')
  {}

  lemma MoveOpen(w: World)
    requires OpenIsCurrent(w) && PointersValid(w) && WorkerSound(w) && Enabled(w, MoveAway)
    ensures OpenIsCurrent(Apply(w, MoveAway))
  {
    var w' := Apply(w, MoveAway);
    forall i | i in w'.published && i in w'.batches && i !in w'.departed && !w'.batches[i].sealed
      ensures Current(w', i)
    {
      assert Current(w, i);
    }
  }

  lemma LateGapInv(w: World, id: BatchId)
    requires Inv(w) && Enabled(w, LateGap(id))
    ensures Inv(Apply(w, LateGap(id)))
  {
    if id in w.batches {
      EditInv(w, id, w.batches[id].(gaps := w.batches[id].gaps + {RetirementGap}));
    } else {
      LooseInv(w, id, Apply(w, LateGap(id)).batches[id]);
      assert w.names + {id} == w.names;
    }
  }

  lemma SweepInv(w: World, id: BatchId, remains: Batch)
    requires Inv(w) && Enabled(w, ShredBatch(id, remains))
    ensures Inv(Apply(w, ShredBatch(id, remains)))
  {
    SweepSparesPublished(w, id);
    LooseInv(w, id, remains);
    assert w.names + {id} == w.names;
  }

  /** Writes of the collector inside batches it owns. */
  lemma CollectorWriteInv(w: World, a: Action)
    requires Inv(w) && Enabled(w, a)
    requires IsOwnWrite(a)
    ensures Inv(Apply(w, a))
  {
    assert w.worker.Resting? || w.worker.id != a.id;
    EditInv(w, a.id, Apply(w, a).batches[a.id]);
    assert Apply(w, a) == Put(w, a.id, Apply(w, a).batches[a.id]);
  }

  lemma SealInv(w: World, source: Source, id: BatchId)
    requires Inv(w) && Enabled(w, SealBatch(source, id))
    ensures Inv(Apply(w, SealBatch(source, id)))
  {
    EditInv(w, id, w.batches[id].(sealed := true));
  }

  lemma NewInv(w: World, a: Action)
    requires Inv(w) && Enabled(w, a) && (a.MakeBatch? || a.DescribeBatch?)
    ensures Inv(Apply(w, a))
  {
    LooseInv(w, a.id, Apply(w, a).batches[a.id]);
    assert a.DescribeBatch? ==> w.names + {a.id} == w.names;
  }

  /** The worker's own bookkeeping leaves the buffer alone. */
  lemma BufferUnchanged(w: World, w': World)
    requires w' == w.(repository := w'.repository, worker := w'.worker, garbage := w'.garbage)
    requires PointersValid(w) && PublishedHeld(w) && OpenIsCurrent(w) && PreviousPublished(w) && DeparturesVerified(w)
    ensures PointersValid(w') && PublishedHeld(w') && OpenIsCurrent(w') && PreviousPublished(w')
    ensures DeparturesVerified(w')
  {
    forall i | i in w'.published && i in w'.batches && i !in w'.departed && !w'.batches[i].sealed
      ensures Current(w', i)
    {
      assert Current(w, i);
    }
  }

  predicate IsWorkerStep(a: Action) {
    a.Choose? || a.StoreCopy? || a.StoreFails? || a.VerifyCopy? || a.Purge? || a.PruneOldest? || a.Stop?
  }

  lemma WorkerSoundStep(w: World, a: Action)
    requires WorkerSound(w) && OpenIsCurrent(w) && PublishedHeld(w) && Enabled(w, a) && IsWorkerStep(a)
    ensures WorkerSound(Apply(w, a))
  {
    var w' := Apply(w, a);
    assert w'.batches == w.batches && w'.active == w.active;
    assert w'.published == w.published && w'.departed == w.departed;
    if !w'.worker.Resting? && !a.Choose? { assert w'.worker.id == w.worker.id; }
  }

  lemma WorkerInv(w: World, a: Action)
    requires Inv(w) && Enabled(w, a) && IsWorkerStep(a)
    ensures Inv(Apply(w, a))
  {
    BufferUnchanged(w, Apply(w, a));
    WorkerSoundStep(w, a);
  }

  predicate IsOwnWrite(a: Action) {
    a.CreateIndex? || a.MakeEventDir? || a.DropEventDir? || a.NoteGap? || a.NoteProgress? || a.CommitEvent?
  }

  lemma InvStep(w: World, a: Action)
    requires Inv(w) && Enabled(w, a)
    ensures Inv(Apply(w, a))
  {
    if IsOwnWrite(a) {
      CollectorWriteInv(w, a);
    } else if IsWorkerStep(a) {
      WorkerInv(w, a);
    } else if a.MakeBatch? || a.DescribeBatch? {
      NewInv(w, a);
    } else {
      OtherStepInv(w, a);
    }
  }

  lemma OtherStepInv(w: World, a: Action)
    requires Inv(w) && Enabled(w, a)
    requires !IsOwnWrite(a) && !IsWorkerStep(a) && !a.MakeBatch? && !a.DescribeBatch?
    ensures Inv(Apply(w, a))
  {
    match a
    case SwapPointer(source, id) => SwapInv(w, source, id);
    case SealBatch(source, id) => SealInv(w, source, id);
    case DropPointer(source) => DropInv(w, source);
    case ShredBatch(id, remains) => SweepInv(w, id, remains);
    case RemoveBatch(id) => SweepSparesPublished(w, id); RemoveInv(w, id);
    case MoveAway => MoveInv(w);
    case LateGap(id) => LateGapInv(w, id);
  }
}
