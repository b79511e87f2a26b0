/**
 The storing process of tools/product_archive.py (`BorgStore.commit_sealed`). It runs beside the
 collector and takes the collector's lock only to move a finished batch away, so between any two of
 its steps the collector may have written anything a collector can write.
 */
module BorgWorker {
  import opened Wrappers
  import opened ArchiveModel
  import opened ArchiveSafety
  import opened ArchiveTheorems

  /** A Borg command failed, and perhaps left an archive that is not complete. */
  datatype Outcome = Fine | Fails(partial: Option<Batch>)

  /** What the host answers on some occasion: how a command went, the repository's size, the free space beside it. */
  datatype Answer = Answer(outcome: Outcome, bytes: nat, free: nat)

  datatype StoreError = BorgFailed | OverBudget | NoSpace | MissingDescriptor

  predicate Healthy(a: Answer, maxBytes: nat,
                    reserve: nat) { a.outcome.Fine? && a.bytes <= maxBytes && a.free >= reserve }

  ghost predicate AlwaysHealthy(host: nat -> Answer, maxBytes: nat, reserve: nat) {
    forall t: nat :: Healthy(host(t), maxBytes, reserve)
  }

  ghost predicate CollectorOnly(run: seq<Action>) {
    forall i | 0 <= i < |run| :: !IsWorkerStep(run[i]) && !run[i].MoveAway?
  }

  /** Whatever the collector does at the n-th opportunity is a run of its own writes. */
  ghost predicate Rely(others: (nat, World) -> seq<Action>) {
    forall t: nat, w: World :: Inv(w) ==> IsRun(w, others(t, w)) && CollectorOnly(others(t, w))
  }

  lemma ConcatLast<T>(a: seq<T>, b: seq<T>)
    requires b != []
    ensures a + b == (a + b[..|b| - 1]) + [b[|b| - 1]]
  {}

  lemma {:induction false} RunConcat(w: World, a: seq<Action>, b: seq<Action>)
    requires IsRun(w, a) && IsRun(After(w, a), b)
    ensures IsRun(w, a + b) && After(w, a + b) == After(After(w, a), b)
    decreases |b|
  {
    var middle := After(w, a);
    if b == [] {
      assert a + b == a;
    } else {
      var before, last := b[..|b| - 1], b[|b| - 1];
      RunConcat(w, a, before);
      var ab := a + before;
      ConcatLast(a, b);
      assert Enabled(After(w, ab), last) && After(middle, b) == Apply(After(middle, before), last);
      Then(w, ab, last);
    }
  }

  predicate SameWorker(w: World, w': World) {
    w'.worker == w.worker && w'.departed == w.departed && w'.garbage == w.garbage && w'.repository == w.repository
  }

  /** The same batches are in the worker's hands. */
  predicate SameCustody(w: World,
                        w': World) { w'.worker == w.worker && w'.departed == w.departed && w'.garbage == w.garbage }

  lemma CollectorStepSparesWorker(w: World, a: Action)
    requires Enabled(w, a) && !IsWorkerStep(a) && !a.MoveAway?
    ensures SameWorker(w, Apply(w, a))
  {}

  /** The collector leaves the worker's own state alone. */
  lemma {:induction false} CollectorSparesWorker(w: World, run: seq<Action>)
    requires IsRun(w, run) && CollectorOnly(run)
    ensures SameWorker(w, After(w, run))
    decreases |run|
  {
    if run != [] {
      var before := run[..|run| - 1];
      CollectorSparesWorker(w, before);
      CollectorStepSparesWorker(After(w, before), run[|run| - 1]);
    }
  }

  /** Whether the collector may make a write does not depend on the worker's side of the disk. */
  lemma CollectorReadsBuffer(w: World, w': World, c: Action)
    requires w' == w.(repository := w'.repository, worker := w'.worker, garbage := w'.garbage)
    requires !IsWorkerStep(c) && !c.MoveAway?
    ensures Enabled(w, c) ==> Enabled(w', c)
  {}

  /**
   While the collector holds its lock the worker can only work on its repository, and nothing it
   does there can enable or disable a write of the collector.
   */
  lemma WorkerInvisibleUnderLock(w: World, a: Action, c: Action)
    requires Enabled(w, a) && IsWorkerStep(a) && !IsWorkerStep(c) && !c.MoveAway?
    ensures Enabled(w, c) <==> Enabled(Apply(w, a), c)
  {
    var w' := Apply(w, a);
    CollectorReadsBuffer(w, w', c);
    CollectorReadsBuffer(w', w, c);
  }

  /** The batch was closed with these contents and still is, or has departed with them. */
  ghost predicate OnItsWay(w: World, w': World, id: BatchId) {
    Closed(w, id) ==> HeldAs(w', id, Core(w.batches[id]))
  }

  lemma StaysOnItsWay(w: World, w1: World, run: seq<Action>, id: BatchId)
    requires Inv(w1) && IsRun(w1, run) && OnItsWay(w, w1, id)
    ensures OnItsWay(w, After(w1, run), id)
  {
    if Closed(w, id) {
      if Closed(w1, id) && Core(w1.batches[id]) == Core(w.batches[id]) {
        SealedIsFrozen(w1, run, id);
      } else {
        DepartedStays(w1, run, id);
      }
    }
  }

  lemma {:induction false} DepartedStays(w: World, run: seq<Action>, id: BatchId)
    requires Inv(w) && IsRun(w, run) && id in w.departed && forall s | s in w.active :: w.active[s] != id
    ensures var w' := After(w, run);
            id in w'.departed && w'.departed[id] == w.departed[id] && forall s | s in w'.active :: w'.active[s] != id
    decreases |run|
  {
    if run != [] {
      var before := run[..|run| - 1];
      DepartedStays(w, before, id);
      RunInv(w, before);
      DepartedStep(After(w, before), run[|run| - 1], id);
    }
  }

  lemma {:induction false} QuotaStays(w: World, run: seq<Action>)
    requires IsRun(w, run)
    ensures After(w, run).quota == w.quota
    decreases |run|
  {
    if run != [] {
      QuotaStays(w, run[..|run| - 1]);
      QuotaFixed(After(w, run[..|run| - 1]), run[|run| - 1]);
    }
  }

  lemma QuotaFixed(w: World, a: Action)
    requires Enabled(w, a)
    ensures Apply(w, a).quota == w.quota
  {}

  /**
   The oldest archives went, one for each of these occasions, and never the newest: on each of them the host found
   space short, and the deletion it was asked for next succeeded.
   */
  ghost predicate Trimmed(host: nat -> Answer, occasions: seq<nat>, target: nat, reserve: nat,
                          before: seq<(BatchId, Batch)>, after: seq<(BatchId, Batch)>) {
    && |occasions| <= |before| && after == before[|occasions|..] && (before != [] ==> after != [])
    && forall i | 0 <= i < |occasions| :: ShortThenDeleted(host, occasions[i], target, reserve)
  }

  ghost predicate ShortThenDeleted(host: nat -> Answer, t: nat, target: nat, reserve: nat) {
    (host(t).bytes > target || host(t).free < reserve) && host(t + 1).outcome.Fine?
  }

  /** How the loop ends, after its last measurement: with enough space, or one archive left, or a failed command. */
  ghost predicate EndsSo(host: nat -> Answer, last: nat, maxBytes: nat, target: nat, reserve: nat,
                         after: seq<(BatchId, Batch)>, r: Result<(), StoreError>) {
    match r
    case Success(_) =>
      && host(last).bytes <= maxBytes
      && (|after| > 1 ==> host(last).bytes <= target && host(last).free >= reserve)
    case Failure(OverBudget) =>
      && host(last).bytes > maxBytes
      && (|after| > 1 ==> host(last).bytes <= target && host(last).free >= reserve)
    case Failure(_) =>
      && (host(last).bytes > target || host(last).free < reserve)
      && !(host(last + 1).outcome.Fine? && host(last + 2).outcome.Fine?)
  }

  /**
   What a prune does that lists the repository at this tick: it fails with the listing, or leaves everything if the
   answer is within the budget and the reserve, or ends as its loop does.
   */
  ghost predicate PrunedSo(host: nat -> Answer, at: nat, occasions: seq<nat>, maxBytes: nat, target: nat, reserve: nat,
                           after: seq<(BatchId, Batch)>, r: Result<(), StoreError>) {
    var listed := host(at);
    if !listed.outcome.Fine? then r == Failure(BorgFailed) && occasions == []
    else if listed.bytes <= maxBytes && listed.free >= reserve then r.Success? && occasions == []
    else exists last: nat :: at < last && EndsSo(host, last, maxBytes, target, reserve, after, r)
  }

  /** The copy that was verified is the newest archive. */
  ghost predicate Newest(w: World)
    requires w.worker.Verified?
  {
    w.repository != [] && w.repository[|w.repository| - 1] == (w.worker.id, w.worker.copy)
  }

  /** A prune that succeeded. */
  ghost predicate Pruned(host: nat -> Answer, at: nat, occasions: seq<nat>, maxBytes: nat, target: nat, reserve: nat,
                         before: seq<(BatchId, Batch)>, after: seq<(BatchId, Batch)>) {
    && Trimmed(host, occasions, target, reserve, before, after)
    && PrunedSo(host, at, occasions, maxBytes, target, reserve, after, Success(()))
  }

  /** One prune, then the batch's own archive replaced, then another prune. */
  ghost predicate PrunedTwice(host: nat -> Answer, first: nat, before: seq<nat>, second: nat, after: seq<nat>,
                              maxBytes: nat, target: nat, reserve: nat,
                              repository: seq<(BatchId, Batch)>, id: BatchId, copy: Batch,
                              repository': seq<(BatchId, Batch)>) {
    && |before| <= |repository|
    && var kept := repository[|before|..];
    && Pruned(host, first, before, maxBytes, target, reserve, repository, kept)
    && Pruned(host, second, after, maxBytes, target, reserve, Replaced(kept, id, copy), repository')
  }

  lemma PrunedWell(host: nat -> Answer, at: nat, occasions: seq<nat>, maxBytes: nat, target: nat, reserve: nat,
                   before: seq<(BatchId, Batch)>, after: seq<(BatchId, Batch)>, r: Result<(), StoreError>)
    requires Trimmed(host, occasions, target, reserve, before, after) && r.Success?
    requires PrunedSo(host, at, occasions, maxBytes, target, reserve, after, r)
    ensures Pruned(host, at, occasions, maxBytes, target, reserve, before, after)
  {
    assert r.value == ();
  }

  lemma ThenPruned(host: nat -> Answer, first: nat, before: seq<nat>, second: nat, after: seq<nat>,
                   maxBytes: nat, target: nat, reserve: nat, repository: seq<(BatchId, Batch)>,
                   kept: seq<(BatchId, Batch)>, id: BatchId, copy: Batch, repository': seq<(BatchId, Batch)>)
    requires Pruned(host, first, before, maxBytes, target, reserve, repository, kept)
    requires Pruned(host, second, after, maxBytes, target, reserve, Replaced(kept, id, copy), repository')
    ensures PrunedTwice(host, first, before, second, after, maxBytes, target, reserve, repository, id, copy,
                        repository')
  {}

  /** The repository with this archive in place of any other of its name. */
  function Replaced(repository: seq<(BatchId, Batch)>, id: BatchId, copy: Batch): seq<(BatchId, Batch)> {
    Unnamed(repository, id) + [(id, copy)]
  }

  lemma {:induction false} UnnamedAppend(repository: seq<(BatchId, Batch)>, last: (BatchId, Batch), id: BatchId)
    ensures Unnamed(repository + [last], id) == Unnamed(repository, id) + if last.0 == id then [] else [last]
  {
    if repository != [] {
      UnnamedAppend(repository[1..], last, id);
      assert (repository + [last])[1..] == repository[1..] + [last];
    }
  }

  /** The archives of other names, and only these, stay, in their order. */
  lemma {:induction false} OthersStay(repository: seq<(BatchId, Batch)>, id: BatchId) returns (places: seq<nat>)
    ensures |Unnamed(repository, id)| == |places|
    ensures forall i | 0 <= i < |places| ::
              places[i] < |repository| && Unnamed(repository, id)[i] == repository[places[i]]
    ensures forall i, j | 0 <= i < j < |places| :: places[i] < places[j]
    ensures forall k: nat | k < |repository| :: k in places <==> repository[k].0 != id
  {
    places := [];
    if repository != [] {
      var n := |repository| - 1;
      var before, last := repository[..n], repository[n];
      places := OthersStay(before, id);
      assert repository == before + [last];
      UnnamedAppend(before, last, id);
      assert forall k: nat | k < n :: k in places <==> repository[k].0 != id by {
        assert forall k: nat | k < n :: repository[k] == before[k];
      }
      assert n !in places;
      if last.0 != id { places := places + [n]; }
    }
  }

  lemma TrimmedNone(host: nat -> Answer, target: nat, reserve: nat, repository: seq<(BatchId, Batch)>)
    ensures Trimmed(host, [], target, reserve, repository, repository)
  {}

  lemma TrimmedNext(host: nat -> Answer, occasions: seq<nat>, t: nat, target: nat, reserve: nat,
                    before: seq<(BatchId, Batch)>, mid: seq<(BatchId, Batch)>)
    requires Trimmed(host, occasions, target, reserve, before, mid) && |mid| > 1
    requires ShortThenDeleted(host, t, target, reserve)
    ensures Trimmed(host, occasions + [t], target, reserve, before, mid[1..])
  {
    assert before[|occasions|..][1..] == before[|occasions| + 1..];
  }

  class BorgStore {
    const maxBytes: nat
    /** Nine tenths of it, as rounded by a product of floats. */
    const target: nat
    const reserve: nat
    var world: World
    var ticks: nat
    /** Everything up to where the pass began, the state there, and all that has happened since. */
    ghost var history: seq<Action>
    ghost var start: World
    ghost var run: seq<Action>

    ghost predicate Valid()
      reads this
    {
      && IsRun(Initial(start.quota), history) && start == After(Initial(start.quota), history)
      && IsRun(start, run) && world == After(start, run)
    }

    constructor (world: World, ghost history: seq<Action>, maxBytes: nat, target: nat, reserve: nat)
      requires IsRun(Initial(world.quota), history) && world == After(Initial(world.quota), history)
      ensures Valid() && this.world == world
      ensures this.maxBytes == maxBytes && this.target == target && this.reserve == reserve
    {
      this.world, this.maxBytes, this.target, this.reserve, ticks := world, maxBytes, target, reserve, 0;
      this.history, start, run := history, world, [];
    }

    lemma Safe()
      requires Valid()
      ensures Inv(world)
    {
      InitialInv(start.quota);
      RunInv(Initial(start.quota), history);
      RunInv(start, run);
    }

    lemma Sound()
      requires Valid()
      ensures WorkerSound(world) && DeparturesVerified(world)
    {
      Safe();
    }

    /** A new pass begins. */
    ghost method Begin()
      requires Valid()
      modifies this`history, this`start, this`run
      ensures Valid() && start == world && run == []
    {
      RunConcat(Initial(start.quota), history, run);
      QuotaStays(Initial(start.quota), history + run);
      history, start, run := history + run, world, [];
    }

    /** One durable step of the worker. */
    method Do(a: Action)
      requires Valid() && Enabled(world, a)
      modifies this`world, this`run
      ensures Valid() && world == Apply(old(world), a)
    {
      Then(start, run, a);
      world := Apply(world, a);
      run := run + [a];
    }

    /** The host is asked something, and the collector runs for a while. */
    method Ask(others: (nat, World) -> seq<Action>, host: nat -> Answer) returns (a: Answer)
      requires Valid() && Rely(others)
      modifies this`world, this`run, this`ticks
      ensures Valid() && SameWorker(old(world), world)
      ensures a == host(old(ticks)) && ticks == old(ticks) + 1
    {
      assert Inv(world) by { Safe(); }
      var burst := others(ticks, world);
      RunConcat(start, run, burst);
      CollectorSparesWorker(world, burst);
      world := After(world, burst);
      run := run + burst;
      a := host(ticks);
      ticks := ticks + 1;
    }

    method Rest()
      requires Valid()
      modifies this`world, this`run
      ensures Valid() && SameWorker(old(world).(worker := Resting), world)
    {
      Do(Stop);
    }

    /** After the host measured, the oldest archive goes and the repository is compacted; false where either fails. */
    method DeleteOldest(others: (nat, World) -> seq<Action>, host: nat -> Answer, ghost measured: nat)
      returns (ok: bool)
      requires Valid() && Rely(others) && |world.repository| > 1 && ticks == measured + 1
      modifies this`world, this`run, this`ticks
      ensures Valid() && SameCustody(old(world), world) && ticks > old(ticks)
      ensures ok <==> host(measured + 1).outcome.Fine? && host(measured + 2).outcome.Fine?
      ensures world.repository ==
              if host(measured + 1).outcome.Fine? then old(world).repository[1..] else old(world).repository
    {
      var deleted := Ask(others, host);
      if !deleted.outcome.Fine? { return false; }
      Do(PruneOldest);
      var compacted := Ask(others, host);
      ok := compacted.outcome.Fine?;
    }

    /** Whether the repository may stay as large as it is. */
    predicate Crowded(a: Answer) { a.bytes > target || a.free < reserve }

    /**
     `prune`: nothing goes if the first answer is within the budget and the reserve. Otherwise the oldest
     archives go, each after an answer that found space short, and never the newest one.
     */
    method Prune(others: (nat, World) -> seq<Action>, host: nat -> Answer)
      returns (r: Result<(), StoreError>, ghost occasions: seq<nat>)
      requires Valid() && Rely(others)
      modifies this`world, this`run, this`ticks
      ensures Valid() && SameCustody(old(world), world) && ticks > old(ticks)
      ensures Trimmed(host, occasions, target, reserve, old(world).repository, world.repository)
      ensures forall t | t in occasions :: old(ticks) < t
      ensures PrunedSo(host, old(ticks), occasions, maxBytes, target, reserve, world.repository, r)
      ensures r.Failure? ==> !AlwaysHealthy(host, maxBytes, reserve) && (r.error.BorgFailed? || r.error.OverBudget?)
    {
      occasions := [];
      TrimmedNone(host, target, reserve, world.repository);
      var listed := Ask(others, host);
      if !listed.outcome.Fine? { return Failure(BorgFailed), []; }
      if listed.bytes <= maxBytes && listed.free >= reserve { return Success(()), []; }
      assert !Healthy(listed, maxBytes, reserve);
      ghost var last;
      r, occasions, last := PruneCrowded(others, host);
    }

    /** The loop of `prune`, which measures, deletes and compacts in turn. */
    method PruneCrowded(others: (nat, World) -> seq<Action>, host: nat -> Answer)
      returns (r: Result<(), StoreError>, ghost occasions: seq<nat>, ghost last: nat)
      requires Valid() && Rely(others)
      modifies this`world, this`run, this`ticks
      ensures Valid() && SameCustody(old(world), world) && old(ticks) <= last < ticks
      ensures r.Failure? ==> r.error.BorgFailed? || r.error.OverBudget?
      ensures r.Success? || r == Failure(OverBudget) ==> last + 1 == ticks
      ensures Trimmed(host, occasions, target, reserve, old(world).repository, world.repository)
      ensures forall t | t in occasions :: old(ticks) <= t
      ensures EndsSo(host, last, maxBytes, target, reserve, world.repository, r)
    {
      occasions, last := [], ticks;
      TrimmedNone(host, target, reserve, world.repository);
      var now := Ask(others, host);
      while Crowded(now) && |world.repository| > 1
        invariant Valid() && SameCustody(old(world), world)
        invariant old(ticks) <= last && ticks == last + 1 && now == host(last)
        invariant Trimmed(host, occasions, target, reserve, old(world).repository, world.repository)
        invariant forall t | t in occasions :: old(ticks) <= t
        decreases |world.repository|
      {
        if host(last + 1).outcome.Fine? {
          TrimmedNext(host, occasions, last, target, reserve, old(world).repository, world.repository);
          occasions := occasions + [last];
        }
        var ok := DeleteOldest(others, host, last);
        if !ok { return Failure(BorgFailed), occasions, last; }
        last := ticks;
        now := Ask(others, host);
      }
      r := if now.bytes > maxBytes then Failure(OverBudget) else Success(());
    }

    /** The part of `commit` before anything is stored. */
    method MakeRoom(others: (nat, World) -> seq<Action>, host: nat -> Answer)
      returns (r: Result<(), StoreError>, ghost occasions: seq<nat>, ghost listed: nat, ghost last: nat)
      requires Valid() && Rely(others)
      modifies this`world, this`run, this`ticks
      ensures Valid() && SameCustody(old(world), world) && ticks > old(ticks) && listed == old(ticks) + 1
      ensures Trimmed(host, occasions, target, reserve, old(world).repository, world.repository)
      ensures r.Success? ==> last + 2 == ticks && host(last).free >= reserve
      ensures r.Success? ==> Pruned(host, listed, occasions, maxBytes, target, reserve,
                                    old(world).repository, world.repository)
      ensures r == Failure(NoSpace) ==> last + 1 == ticks && host(last).free < reserve
      ensures r.Failure? ==> !AlwaysHealthy(host, maxBytes, reserve) && !r.error.MissingDescriptor?
    {
      occasions, last := [], ticks;
      TrimmedNone(host, target, reserve, world.repository);
      var initialized := Ask(others, host);
      listed := ticks;
      if !initialized.outcome.Fine? { return Failure(BorgFailed), [], listed, last; }
      r, occasions := Prune(others, host);
      if r.Failure? { return; }
      PrunedWell(host, listed, occasions, maxBytes, target, reserve, old(world).repository, world.repository, r);
      last := ticks;
      var measured := Ask(others, host);
      if measured.free < reserve { return Failure(NoSpace), occasions, listed, last; }
      var unnamed := Ask(others, host);
      if !unnamed.outcome.Fine? { return Failure(BorgFailed), occasions, listed, last; }
    }

    /** Creates the archive and reads it back. */
    method CreateAndCheck(others: (nat, World) -> seq<Action>, host: nat -> Answer) returns (ok: bool)
      requires Valid() && Rely(others) && world.worker.Chosen?
      modifies this`world, this`run, this`ticks
      ensures Valid() && world.departed == old(world).departed && world.garbage == old(world).garbage
      ensures ticks > old(ticks) && (ok <==> host(old(ticks)).outcome.Fine? && host(old(ticks) + 1).outcome.Fine?)
      ensures ok ==>
                && world.worker.Verified? && world.worker.id == old(world).worker.id
                && world.repository == Replaced(old(world).repository, world.worker.id, world.worker.copy)
      ensures !ok ==> world.worker.Resting? && !AlwaysHealthy(host, maxBytes, reserve)
    {
      var created := Ask(others, host);
      if created.outcome.Fails? {
        Do(StoreFails(created.outcome.partial));
        return false;
      }
      Sound();
      Do(StoreCopy);
      var read := Ask(others, host);
      ok := read.outcome.Fine?;
      Do(if ok then VerifyCopy else Stop);
    }

    /** The part of `commit` that stores the batch, and makes room again. */
    method StoreAndPrune(others: (nat, World) -> seq<Action>, host: nat -> Answer)
      returns (r: Result<(), StoreError>, ghost occasions: seq<nat>, ghost listed: nat)
      requires Valid() && Rely(others) && world.worker.Chosen?
      modifies this`world, this`run, this`ticks
      ensures Valid() && world.departed == old(world).departed && world.garbage == old(world).garbage
      ensures r.Success? ==>
                && world.worker.Verified? && world.worker.id == old(world).worker.id
                && Pruned(host, listed, occasions, maxBytes, target, reserve,
                          Replaced(old(world).repository, world.worker.id, world.worker.copy), world.repository)
      ensures r.Success? ==> Newest(world)
      ensures r.Failure? ==>
                world.worker.Resting? && !AlwaysHealthy(host, maxBytes, reserve) && !r.error.MissingDescriptor?
    {
      occasions := [];
      var ok := CreateAndCheck(others, host);
      listed := ticks;
      if !ok { return Failure(BorgFailed), [], listed; }
      ghost var stored := world.repository;
      r, occasions := Prune(others, host);
      if r.Failure? {
        Rest();
      } else {
        PrunedWell(host, listed, occasions, maxBytes, target, reserve, stored, world.repository, r);
      }
    }

    /**
     `commit`. Where it returns, the batch's copy has been read back and is the newest archive, an archive of that
     name was replaced, and others went only as the oldest and for lack of space, on the occasions `before` and
     `after` it was stored; where it raises, the batch stays for the next pass.
     */
    method Commit(others: (nat, World) -> seq<Action>, host: nat -> Answer)
      returns (r: Result<(), StoreError>, ghost before: seq<nat>, ghost after: seq<nat>, ghost listed: nat)
      requires Valid() && Rely(others) && world.worker.Chosen?
      modifies this`world, this`run, this`ticks
      ensures Valid() && world.departed == old(world).departed && world.garbage == old(world).garbage
      ensures r.Success? ==>
                && world.worker.Verified? && world.worker.id == old(world).worker.id
                && world.worker.id in world.batches && Core(world.worker.copy) == Core(world.batches[world.worker.id])
                && Newest(world)
      ensures r.Success? ==>
                PrunedTwice(host, old(ticks) + 1, before, listed, after, maxBytes, target, reserve,
                            old(world).repository, world.worker.id, world.worker.copy, world.repository)
      ensures r.Failure? ==>
                world.worker.Resting? && !AlwaysHealthy(host, maxBytes, reserve) && !r.error.MissingDescriptor?
    {
      after, listed := [], ticks;
      ghost var first, last;
      r, before, first, last := MakeRoom(others, host);
      if r.Failure? {
        Rest();
        return;
      }
      ghost var kept := world.repository;
      r, after, listed := StoreAndPrune(others, host);
      if r.Success? {
        Sound();
        ThenPruned(host, first, before, listed, after, maxBytes, target, reserve,
                   old(world).repository, kept, world.worker.id, world.worker.copy, world.repository);
      }
    }

    /** The batch leaves the buffer under the collector's lock; what is left of it is deleted without. */
    method Leave(others: (nat, World) -> seq<Action>, host: nat -> Answer)
      requires Valid() && Rely(others) && world.worker.Verified? && world.garbage == {}
      modifies this`world, this`run, this`ticks
      ensures Valid() && world.worker.Resting? && world.garbage == {} && world.repository == old(world).repository
      ensures old(world).departed.Keys <= world.departed.Keys
      ensures var id := old(world).worker.id; id in world.departed && world.departed[id].copy == old(world).worker.copy
    {
      var id := world.worker.id;
      var _ := Ask(others, host);
      Sound();
      Do(MoveAway);
      var _ := Ask(others, host);
      Do(Purge(id));
    }

    /**
     Store one batch and move it away. Between the check that it is sealed and inactive, made
     without the collector's lock, and the move, the collector may have done anything: the move
     still finds the batch, unchanged, and its verified copy in the repository.
     */
    method StoreBatch(id: BatchId, others: (nat, World) -> seq<Action>, host: nat -> Answer)
      returns (r: Result<(), StoreError>)
      requires Valid() && Rely(others) && Enabled(world, Choose(id)) && world.garbage == {}
      modifies this`world, this`run, this`ticks
      ensures Valid() && world.worker.Resting? && world.garbage == {}
      ensures old(world).departed.Keys <= world.departed.Keys
      ensures r.Success? ==>
                && id in world.departed && Core(world.departed[id].copy) == Core(world.departed[id].last)
                && world.repository != []
                && world.repository[|world.repository| - 1] == (id, world.departed[id].copy)
      ensures r.Failure? ==> !AlwaysHealthy(host, maxBytes, reserve) && !r.error.MissingDescriptor?
    {
      Do(Choose(id));
      ghost var before, after, listed;
      r, before, after, listed := Commit(others, host);
      if r.Failure? { return; }
      Leave(others, host);
      Sound();
    }

    /** One directory of the pass: skip it, give up on it, or store it. */
    method Consider(id: BatchId, others: (nat, World) -> seq<Action>, host: nat -> Answer)
      returns (r: Result<(), StoreError>)
      requires Valid() && Rely(others) && world.worker.Resting? && world.garbage == {}
      modifies this`world, this`run, this`ticks
      ensures Valid() && world.worker.Resting? && world.garbage == {}
      ensures old(world).departed.Keys <= world.departed.Keys
      ensures r.Success? && Closed(old(world), id) ==> id in world.departed
      ensures r == Failure(MissingDescriptor) <==> Poisoned(old(world), id)
      ensures r == Failure(MissingDescriptor) ==> world == old(world)
      ensures r.Failure? && !r.error.MissingDescriptor? ==> !AlwaysHealthy(host, maxBytes, reserve)
    {
      if id !in world.batches || !world.batches[id].sealed { return Success(()); }
      if world.batches[id].descriptor.None? { return Failure(MissingDescriptor); }
      if ActiveOf(world, world.batches[id].descriptor.value.source) == Some(id) { return Success(()); }
      r := StoreBatch(id, others, host);
    }

    /** What an interrupted pass moved away is deleted first. */
    method PurgeGarbage()
      requires Valid()
      modifies this`world, this`run
      ensures Valid() && world == old(world).(garbage := {})
    {
      while world.garbage != {}
        invariant Valid() && world == old(world).(garbage := world.garbage)
        decreases |world.garbage|
      {
        var id :| id in world.garbage;
        Do(Purge(id));
      }
    }

    /**
     `commit_sealed`. A pass that succeeds has stored, verified and moved away every batch that was
     sealed and inactive when it began, with the contents it had then. On a host where nothing fails
     and space never runs short, the pass fails only on a sealed directory that has lost its descriptor.
     */
    method CommitSealed(others: (nat, World) -> seq<Action>, host: nat -> Answer) returns (r: Result<(), StoreError>)
      requires Valid() && Rely(others) && world.worker.Resting?
      modifies this
      ensures Valid() && world.worker.Resting? && world.garbage == {}
      ensures r.Success? ==> forall id | Closed(old(world), id) :: Archived(world, old(world), id)
      ensures r == Failure(MissingDescriptor) ==> exists id :: Poisoned(world, id)
      ensures r.Failure? && !r.error.MissingDescriptor? ==> !AlwaysHealthy(host, maxBytes, reserve)
    {
      ghost var w := world;
      assert Inv(world) by { Safe(); }
      Begin();
      PurgeGarbage();
      var pending := world.batches.Keys;
      while pending != {}
        invariant Valid() && start == w && world.worker.Resting? && world.garbage == {}
        invariant forall id | Closed(w, id) :: id in pending || id in world.departed
        decreases |pending|
      {
        var id :| id in pending;
        StaysOnItsWay(w, w, run, id);
        r := Consider(id, others, host);
        if r.Failure? {
          if r.error.MissingDescriptor? { assert Poisoned(world, id); }
          return;
        }
        pending := pending - {id};
      }
      forall id | Closed(w, id) ensures Archived(world, w, id) {
        StaysOnItsWay(w, w, run, id);
        Sound();
      }
      r := Success(());
    }
  }

  /** The batch has been moved away with the contents it had, and on the strength of a copy of them. */
  ghost predicate Archived(w: World, before: World, id: BatchId)
    requires id in before.batches
  {
    && id in w.departed && Core(w.departed[id].last) == Core(before.batches[id])
    && Core(w.departed[id].copy) == Core(before.batches[id])
  }
}
