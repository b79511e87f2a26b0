/** The promises of the archive over every run of the collector, the Borg worker and crashes. */
module ArchiveTheorems {
  import opened Wrappers
  import opened ArchiveModel
  import opened ArchiveSafety

  lemma {:induction false} RunInv(w: World, run: seq<Action>)
    requires Inv(w) && IsRun(w, run)
    ensures Inv(After(w, run))
    decreases |run|
  {
    if run != [] {
      RunInv(w, run[..|run| - 1]);
      InvStep(After(w, run[..|run| - 1]), run[|run| - 1]);
    }
  }

  /**
   Whatever the processes do and wherever they die, every batch a pointer ever named is intact in
   the buffer, or left it after a copy with the same contents had been stored and verified.
   */
  lemma NothingPublishedIsLost(quota: nat, run: seq<Action>, id: BatchId)
    requires IsRun(Initial(quota), run) && id in After(Initial(quota), run).published
    ensures var w := After(Initial(quota), run);
            || (Intact(w, id) && id !in w.departed)
            || (id in w.departed && Core(w.departed[id].last) == Core(w.departed[id].copy))
  {
    RunInv(Initial(quota), run);
  }

  /** Recovery deletes only batches that were never published, or what is left of ones safely departed. */
  lemma RecoveryDeletesUnpublished(quota: nat, run: seq<Action>, id: BatchId)
    requires IsRun(Initial(quota), run) && Sweepable(After(Initial(quota), run), id)
    ensures var w := After(Initial(quota), run);
            id !in w.published || (id in w.departed && w.batches[id].descriptor.None?)
  {
    RunInv(Initial(quota), run);
    SweepSparesPublished(After(Initial(quota), run), id);
  }

  /** When a batch is moved away it is sealed, no pointer names it, and its verified copy is the newest archive. */
  lemma MovedBatchIsStored(quota: nat, run: seq<Action>)
    requires IsRun(Initial(quota), run) && Enabled(After(Initial(quota), run), MoveAway)
    ensures var w := After(Initial(quota), run);
            var id, b := w.worker.id, w.batches[w.worker.id];
            && b.sealed && (forall s | s in w.active :: w.active[s] != id)
            && Core(w.worker.copy) == Core(b)
            && w.repository != [] && w.repository[|w.repository| - 1] == (id, w.worker.copy)
  {
    RunInv(Initial(quota), run);
  }

  // ----- A sealed batch that is no longer active never changes -----

  ghost predicate Closed(w: World, id: BatchId) {
    && id in w.batches && id in w.published && id !in w.departed && w.batches[id].sealed
    && forall s | s in w.active :: w.active[s] != id
  }

  /** The batch is still closed with these contents, or has departed with them. */
  ghost predicate HeldAs(w: World, id: BatchId, core: Batch) {
    || (Closed(w, id) && Core(w.batches[id]) == core)
    || (id in w.departed && Core(w.departed[id].last) == core && forall s | s in w.active :: w.active[s] != id)
  }

  /** Pointers only ever move to batches that were never published. */
  lemma PointersMoveOn(w: World, a: Action, id: BatchId)
    requires Enabled(w, a) && id in w.published && forall s | s in w.active :: w.active[s] != id
    ensures forall s | s in Apply(w, a).active :: Apply(w, a).active[s] != id
  {}

  lemma ClosedKeepsContents(w: World, a: Action, id: BatchId)
    requires PublishedHeld(w) && WorkerSound(w) && Enabled(w, a) && Closed(w, id)
    ensures var w' := Apply(w, a);
            if a.MoveAway? && w.worker.id == id
            then id in w'.departed && w'.departed[id].last == w.batches[id]
            else id in w'.batches && id !in w'.departed && w'.batches[id].sealed
                 && Core(w'.batches[id]) == Core(w.batches[id])
  {}

  lemma ClosedStep(w: World, a: Action, id: BatchId)
    requires Inv(w) && Enabled(w, a) && Closed(w, id)
    ensures HeldAs(Apply(w, a), id, Core(w.batches[id]))
  {
    PointersMoveOn(w, a, id);
    ClosedKeepsContents(w, a, id);
  }

  lemma DepartedStep(w: World, a: Action, id: BatchId)
    requires PublishedHeld(w) && WorkerSound(w) && Enabled(w, a)
    requires id in w.departed && forall s | s in w.active :: w.active[s] != id
    ensures var w' := Apply(w, a);
            id in w'.departed && w'.departed[id] == w.departed[id] && forall s | s in w'.active :: w'.active[s] != id
  {
    PointersMoveOn(w, a, id);
  }

  /** Once a batch is sealed and not active, no later write appends to it, changes its heads or points at it again. */
  lemma {:induction false} SealedIsFrozen(w: World, run: seq<Action>, id: BatchId)
    requires Inv(w) && IsRun(w, run) && Closed(w, id)
    ensures HeldAs(After(w, run), id, Core(w.batches[id]))
    decreases |run|
  {
    if run != [] {
      var before, a := run[..|run| - 1], run[|run| - 1];
      SealedIsFrozen(w, before, id);
      RunInv(w, before);
      var w1 := After(w, before);
      if Closed(w1, id) && Core(w1.batches[id]) == Core(w.batches[id]) {
        ClosedStep(w1, a, id);
      } else {
        DepartedStep(w1, a, id);
      }
    }
  }

  // ----- The one write made without a lock -----

  /** The worker's copy is the batch itself, alarms included. */
  ghost predicate CopyExact(w: World) {
    w.worker.Stored? || w.worker.Verified? ==> w.worker.id in w.batches && w.worker.copy == w.batches[w.worker.id]
  }

  /** A stored copy misses something exactly when a retirement alarm is added to its batch after it was taken. */
  lemma CopyMissesIffLateGap(w: World, a: Action)
    requires WorkerSound(w) && PublishedHeld(w) && Enabled(w, a) && CopyExact(w)
    ensures CopyExact(Apply(w, a)) <==>
              !(a.LateGap? && (w.worker.Stored? || w.worker.Verified?) && a.id == w.worker.id
                && RetirementGap !in w.batches[a.id].gaps)
  {
    if a.LateGap? && (w.worker.Stored? || w.worker.Verified?) && a.id == w.worker.id {
      assert RetirementGap in Apply(w, a).batches[a.id].gaps;
      if RetirementGap in w.batches[a.id].gaps { assert Apply(w, a).batches[a.id] == w.batches[a.id]; }
    }
  }

  /** A directory brought back after its batch departed. */
  ghost predicate Haunted(w: World) { exists id :: id in w.departed && id in w.batches }

  /** A sealed directory without `batch.json`: the Borg pass raises on it, every time. */
  ghost predicate Poisoned(w: World, id: BatchId) {
    id in w.batches && w.batches[id].sealed && w.batches[id].descriptor.None?
  }

  /** Only an alarm written into a departed batch can bring its directory back. */
  lemma HauntedIffLateGap(w: World, a: Action)
    requires Inv(w) && Enabled(w, a) && !Haunted(w)
    ensures Haunted(Apply(w, a)) <==> a.LateGap? && a.id !in w.batches
  {
    if a.LateGap? && a.id !in w.batches {
      assert a.id in w.departed && a.id in Apply(w, a).batches;
    }
  }

  /** A batch becomes unfinishable exactly when a rotation seals what was brought back of it after it departed. */
  lemma PoisonedIff(w: World, a: Action, id: BatchId)
    requires Inv(w) && Enabled(w, a) && !Poisoned(w, id)
    ensures Poisoned(Apply(w, a), id) <==> a.SealBatch? && a.id == id && id in w.departed
  {
    if a.SealBatch? && a.id == id { DepartedLacksDescriptor(w, a.source, id); } else { OnlySealsPoison(w, a, id); }
  }

  lemma OnlySealsPoison(w: World, a: Action, id: BatchId)
    requires Enabled(w, a) && !Poisoned(w, id) && !(a.SealBatch? && a.id == id)
    ensures !Poisoned(Apply(w, a), id)
  {}

  /**
   What sealing can test for beforehand: a departed batch that is back lacks its descriptor, and no
   other one does.
   */
  lemma DepartedLacksDescriptor(w: World, source: Source, id: BatchId)
    requires Inv(w) && Enabled(w, SealBatch(source, id))
    ensures id in w.departed <==> w.batches[id].descriptor.None?
  {
    if PreviousOf(w, source) == Some(id) { assert id in w.published; }
  }

  /** Once there, it is never swept and never stored. */
  lemma PoisonIsPermanent(w: World, a: Action, id: BatchId)
    requires PublishedHeld(w) && OpenIsCurrent(w) && WorkerSound(w) && Enabled(w, a) && Poisoned(w, id)
    ensures Poisoned(Apply(w, a), id)
  {
    assert id in w.published && id in w.departed;
    assert w.worker.Resting? || w.worker.id != id;
  }

  /** The `k`th write of the run seals what is left of a batch that has departed, and lacks its descriptor. */
  ghost predicate SealsRemnant(w: World, run: seq<Action>, k: nat, id: BatchId) {
    && k < |run| && run[k].SealBatch? && run[k].id == id && IsRun(w, run[..k])
    && var w' := After(w, run[..k]);
    id in w'.departed && id in w'.batches && w'.batches[id].descriptor.None?
  }

  lemma SealsEarlier(w: World, run: seq<Action>, k: nat, id: BatchId)
    requires run != [] && SealsRemnant(w, run[..|run| - 1], k, id)
    ensures SealsRemnant(w, run, k, id)
  {
    assert run[..|run| - 1][..k] == run[..k];
  }

  lemma SealsBefore(w: World, run: seq<Action>, k: nat, id: BatchId)
    requires k < |run| - 1 && SealsRemnant(w, run, k, id)
    ensures SealsRemnant(w, run[..|run| - 1], k, id)
  {
    assert run[..|run| - 1][..k] == run[..k];
  }

  lemma {:induction false} PoisonedThen(quota: nat, run: seq<Action>, id: BatchId) returns (k: nat)
    requires IsRun(Initial(quota), run) && Poisoned(After(Initial(quota), run), id)
    ensures SealsRemnant(Initial(quota), run, k, id)
    decreases |run|
  {
    var before, a := run[..|run| - 1], run[|run| - 1];
    var w := After(Initial(quota), before);
    if Poisoned(w, id) {
      k := PoisonedThen(quota, before, id);
      SealsEarlier(Initial(quota), run, k, id);
    } else {
      RunInv(Initial(quota), before);
      PoisonedNow(w, a, id);
      k := |run| - 1;
    }
  }

  lemma PoisonedNow(w: World, a: Action, id: BatchId)
    requires Inv(w) && Enabled(w, a) && !Poisoned(w, id) && Poisoned(Apply(w, a), id)
    ensures a.SealBatch? && a.id == id && id in w.departed && id in w.batches && w.batches[id].descriptor.None?
  {
    PoisonedIff(w, a, id);
    DepartedLacksDescriptor(w, a.source, id);
  }

  lemma {:induction false} SealPoisons(quota: nat, run: seq<Action>, k: nat, id: BatchId)
    requires IsRun(Initial(quota), run) && SealsRemnant(Initial(quota), run, k, id)
    ensures Poisoned(After(Initial(quota), run), id)
    decreases |run|
  {
    var before, a := run[..|run| - 1], run[|run| - 1];
    if k < |run| - 1 {
      SealsBefore(Initial(quota), run, k, id);
      SealPoisons(quota, before, k, id);
      RunInv(Initial(quota), before);
      PoisonIsPermanent(After(Initial(quota), before), a, id);
    }
  }

  /**
   In every run, a directory that no pass can finish is there if and only if some write of the run
   sealed the remnant of a departed batch.
   */
  lemma PoisonedRunIff(quota: nat, run: seq<Action>, id: BatchId)
    requires IsRun(Initial(quota), run)
    ensures Poisoned(After(Initial(quota), run), id) <==> exists k: nat :: SealsRemnant(Initial(quota), run, k, id)
  {
    if Poisoned(After(Initial(quota), run), id) {
      var k := PoisonedThen(quota, run, id);
    }
    if k: nat :| SealsRemnant(Initial(quota), run, k, id) { SealPoisons(quota, run, k, id); }
  }

  // ----- Both failures do happen -----

  lemma Then(w: World, run: seq<Action>, a: Action)
    requires IsRun(w, run) && Enabled(After(w, run), a)
    ensures IsRun(w, run + [a]) && After(w, run + [a]) == Apply(After(w, run), a)
  {
    assert (run + [a])[..|run|] == run;
  }

  /** A batch with no events yet. */
  function EmptyDay(day: int, previous: Option<BatchId>): Batch {
    NEW_BATCH.(descriptor := Some(Descriptor("s", day, previous)), indexed := true)
  }

  lemma OpenDay(w0: World, run: seq<Action>, id: BatchId, day: int) returns (longer: seq<Action>)
    requires IsRun(w0, run)
    requires var w := After(w0, run);
             && id !in w.names && id !in w.published && Settled(w, "s") && PreviousOf(w, "s") != Some(id)
             && ("s" in w.active ==> w.active["s"] in w.batches && w.active["s"] != id
                                     && w.batches[w.active["s"]].heads == map[])
    ensures IsRun(w0, longer)
    ensures var w := After(w0, run);
            After(w0, longer) == Put(w, id, EmptyDay(day, ActiveOf(w, "s"))).(
              names := w.names + {id}, active := w.active["s" := id], published := w.published + {id})
  {
    var w := After(w0, run);
    longer := PrepareDay(w0, run, id, day);
    var w3 := After(w0, longer);
    assert ActiveOf(w3, "s") == ActiveOf(w, "s") && PreviousOf(w3, "s") == PreviousOf(w, "s");
    Then(w0, longer, SwapPointer("s", id)); longer := longer + [SwapPointer("s", id)];
  }

  lemma DescribeDay(w0: World, run: seq<Action>, id: BatchId, d: Descriptor) returns (longer: seq<Action>)
    requires IsRun(w0, run) && id !in After(w0, run).names && id !in After(w0, run).published
    requires d.previous == ActiveOf(After(w0, run), d.source)
    ensures IsRun(w0, longer)
    ensures var w := After(w0, run);
            After(w0, longer) == Put(w, id, NEW_BATCH.(descriptor := Some(d))).(names := w.names + {id})
  {
    var w := After(w0, run);
    Then(w0, run, MakeBatch(id)); longer := run + [MakeBatch(id)];
    var w1 := Put(w, id, NEW_BATCH).(names := w.names + {id});
    assert After(w0, longer) == w1 && ActiveOf(w1, d.source) == d.previous;
    Then(w0, longer, DescribeBatch(id, d)); longer := longer + [DescribeBatch(id, d)];
    var b := NEW_BATCH.(descriptor := Some(d));
    assert Put(w1, id, b).batches == w.batches[id := b];
  }

  lemma PrepareDay(w0: World, run: seq<Action>, id: BatchId, day: int) returns (longer: seq<Action>)
    requires IsRun(w0, run) && id !in After(w0, run).names && id !in After(w0, run).published
    ensures IsRun(w0, longer)
    ensures var w := After(w0, run);
            After(w0, longer) == Put(w, id, EmptyDay(day, ActiveOf(w, "s"))).(names := w.names + {id})
  {
    var w := After(w0, run);
    var d := Descriptor("s", day, ActiveOf(w, "s"));
    longer := DescribeDay(w0, run, id, d);
    var w2, b := After(w0, longer), EmptyDay(day, d.previous);
    Then(w0, longer, CreateIndex(id)); longer := longer + [CreateIndex(id)];
    assert Put(w2, id, b).batches == w.batches[id := b];
  }

  /** A day is rotated out and its copy taken and verified; nothing else has happened. */
  lemma RotatedDay() returns (run: seq<Action>)
    ensures IsRun(Initial(0), run)
    ensures After(Initial(0), run)
         == World(0, map[0 := EmptyDay(1, None).(sealed := true), 1 := EmptyDay(2, Some(0))], map["s" := 1], {},
                  [(0, EmptyDay(1, None).(sealed := true))], Verified(0, EmptyDay(1, None).(sealed := true)),
                  {0, 1}, {0, 1}, map[])
  {
    var w0 := Initial(0);
    run := OpenDay(w0, [], 0, 1);
    run := OpenDay(w0, run, 1, 2);
    Then(w0, run, SealBatch("s", 0)); run := run + [SealBatch("s", 0)];
    var w := World(0, map[0 := EmptyDay(1, None).(sealed := true), 1 := EmptyDay(2, Some(0))], map["s" := 1], {},
                   [], Resting, {0, 1}, {0, 1}, map[]);
    assert After(w0, run) == w;
    run := StoreDay(w0, run, w);
  }

  lemma StoreDay(w0: World, run: seq<Action>, w: World) returns (longer: seq<Action>)
    requires IsRun(w0, run) && After(w0, run) == w && Enabled(w, Choose(0)) && w.repository == []
    ensures IsRun(w0, longer)
    ensures After(w0, longer) == w.(repository := [(0, w.batches[0])], worker := Verified(0, w.batches[0]))
  {
    longer := run;
    Then(w0, longer, Choose(0)); longer := longer + [Choose(0)];
    Then(w0, longer, StoreCopy); longer := longer + [StoreCopy];
    Then(w0, longer, VerifyCopy); longer := longer + [VerifyCopy];
  }

  /** A final capture fails after its day was copied: the alarm is not in the archive the batch leaves on. */
  lemma LateGapIsNotArchived() returns (run: seq<Action>)
    ensures IsRun(Initial(0), run)
    ensures var w := After(Initial(0), run);
            0 in w.departed && RetirementGap in w.departed[0].last.gaps && RetirementGap !in w.departed[0].copy.gaps
  {
    run := RotatedDay();
    Then(Initial(0), run, LateGap(0)); run := run + [LateGap(0)];
    Then(Initial(0), run, MoveAway); run := run + [MoveAway];
  }

  /** The same alarm, written after the batch departed, then recovery: the Borg pass fails from here on. */
  lemma LateGapPoisons() returns (run: seq<Action>)
    ensures IsRun(Initial(0), run) && Poisoned(After(Initial(0), run), 0)
  {
    run := RotatedDay();
    Then(Initial(0), run, MoveAway); run := run + [MoveAway];
    Then(Initial(0), run, LateGap(0)); run := run + [LateGap(0)];
    Then(Initial(0), run, SealBatch("s", 0)); run := run + [SealBatch("s", 0)];
  }
}
