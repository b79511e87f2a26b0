/**
 The durable state of the daily archive (tools/product_archive.py) and the single durable writes
 that change it. A process may die between any two of them, and the Borg worker's steps may come
 between any two of the collector's.
 */
module ArchiveModel {
  import opened Wrappers
  import opened LiveSource

  type BatchId = nat
  type Source = string
  type Dir = nat

  /** `batch.json` */
  datatype Descriptor = Descriptor(source: Source, day: int, previous: Option<BatchId>)

  /** A file in a batch's `gaps/`: for a committed event, for an absent collector, for a failed retirement. */
  datatype GapKey = EventGap(product: Product, version: Version) | AbsenceGap(last: int) | RetirementGap

  datatype Event = Event(
    product: Product, kind: Kind, head: Head, gap: bool, dir: Dir, effective: int, bytes: nat)

  /**
   One directory under `batches/`. `whole` is history, not a file: no removal of the directory has
   begun. The events, heads and usage tables change together in one transaction.
   */
  datatype Batch = Batch(
    descriptor: Option<Descriptor>, whole: bool, indexed: bool, sealed: bool,
    events: seq<Event>, heads: map<Product, Head>, usage: nat,
    dirs: set<Dir>, gaps: set<GapKey>, progress: Option<int>)

  const NEW_BATCH := Batch(None, true, false, false, [], map[], 0, {}, {}, None)

  /** What a batch holds apart from its continuity alarms. */
  function Core(b: Batch): Batch { b.(gaps := {}) }

  /** The Borg worker: which batch it is storing, and what it has stored so far. */
  datatype Worker =
    | Resting
    | Chosen(id: BatchId)
    | Stored(id: BatchId, copy: Batch)
    | Verified(id: BatchId, copy: Batch)

  /** A batch as it was when it left the buffer, and the verified copy it left on the strength of. */
  datatype Departure = Departure(last: Batch, copy: Batch)

  /** `names`, `published` and `departed` are history: names used, batches a pointer ever named, batches moved away. */
  datatype World = World(
    quota: nat,
    batches: map<BatchId, Batch>, active: map<Source, BatchId>, garbage: set<BatchId>,
    repository: seq<(BatchId, Batch)>, worker: Worker,
    names: set<BatchId>, published: set<BatchId>, departed: map<BatchId, Departure>)

  datatype Action =
    // collector, under its lock
    | MakeBatch(id: BatchId)
    | DescribeBatch(id: BatchId, descriptor: Descriptor)
    | CreateIndex(id: BatchId)
    | MakeEventDir(id: BatchId, dir: Dir)
    | DropEventDir(id: BatchId, dir: Dir)
    | NoteGap(id: BatchId, gap: GapKey)
    | NoteProgress(id: BatchId, at: int)
    | CommitEvent(id: BatchId, event: Event, overhead: nat)
    | SwapPointer(source: Source, id: BatchId)
    | SealBatch(source: Source, id: BatchId)
    | DropPointer(source: Source)
    | ShredBatch(id: BatchId, remains: Batch)
    | RemoveBatch(id: BatchId)
    // Borg worker
    | Choose(id: BatchId)
    | StoreCopy
    | StoreFails(partial: Option<Batch>)
    | VerifyCopy
    | MoveAway
    | Purge(id: BatchId)
    | PruneOldest
    | Stop
    // the collector's alarm for a failed final capture, written without its lock
    | LateGap(id: BatchId)

  // ----- What the writes require -----

  function ActiveOf(w: World, source: Source): Option<BatchId> {
    if source in w.active then Some(w.active[source]) else None
  }

  /** The batch the active one was opened after, as recovery reads it. */
  function PreviousOf(w: World, source: Source): Option<BatchId> {
    if source in w.active && w.active[source] in w.batches && w.batches[w.active[source]].descriptor.Some?
    then w.batches[w.active[source]].descriptor.value.previous else None
  }

  /** No rotation is half done: the predecessor of the active batch is sealed or gone. */
  predicate Settled(w: World, source: Source) {
    var p := PreviousOf(w, source);
    p.Some? && p.value in w.batches ==> w.batches[p.value].sealed
  }

  /** A batch the collector may write: the active one, or one no pointer has named yet. */
  predicate Owned(w: World, id: BatchId) {
    && id in w.batches && w.batches[id].whole && w.batches[id].descriptor.Some?
    && (id in w.published ==> ActiveOf(w, w.batches[id].descriptor.value.source) == Some(id))
  }

  predicate Writable(w: World, id: BatchId) {
    Owned(w, id) && w.batches[id].indexed && !w.batches[id].sealed
  }

  predicate Committed(b: Batch, dir: Dir) {
    exists i | 0 <= i < |b.events| :: b.events[i].dir == dir
  }

  /** The event extends the product's committed state. */
  predicate Joins(b: Batch, e: Event) {
    match e.kind
    case Baseline => e.product !in b.heads || e.gap
    case Delta(base) => e.product in b.heads && b.heads[e.product].version == base
    case Replacement => e.product in b.heads
  }

  /** The first event of a product in a batch. */
  function FirstEvent(events: seq<Event>, product: Product): Option<Event> {
    if events == [] then None
    else
      var before := FirstEvent(events[..|events| - 1], product);
      if before.Some? then before
      else if events[|events| - 1].product == product then Some(events[|events| - 1]) else None
  }

  /** The new day opens where the old one ended, or says that it does not. */
  ghost predicate Continues(before: Batch, after: Batch) {
    forall p | p in before.heads ::
      var first := FirstEvent(after.events, p);
      first.Some? && (first.value.head.version == before.heads[p].version || first.value.gap)
  }

  ghost function TotalUsage(batches: map<BatchId, Batch>): nat {
    if batches == map[] then 0
    else
      var id :| id in batches;
      batches[id].usage + TotalUsage(batches - {id})
  }

  /** Removal skips sealed batches, active batches, and other sources' batches with a descriptor. */
  predicate Sweepable(w: World, id: BatchId) {
    && id in w.batches && !w.batches[id].sealed
    && (w.batches[id].descriptor.Some? ==>
          var source := w.batches[id].descriptor.value.source;
          ActiveOf(w, source) != Some(id) && Settled(w, source))
  }

  ghost predicate Enabled(w: World, a: Action) {
    match a
    case MakeBatch(id) => id !in w.names
    case DescribeBatch(id, d) =>
      id in w.batches && id !in w.published && w.batches[id] == NEW_BATCH && d.previous == ActiveOf(w, d.source)
    case CreateIndex(id) => Owned(w, id) && id !in w.published
    case MakeEventDir(id, dir) => Writable(w, id) && dir !in w.batches[id].dirs
    case DropEventDir(id, dir) => Owned(w, id) && !Committed(w.batches[id], dir)
    case NoteGap(id, gap) => Owned(w, id)
    case NoteProgress(id, _) => Owned(w, id)
    case CommitEvent(id, e, overhead) =>
      && Writable(w, id)
      && e.dir in w.batches[id].dirs && !Committed(w.batches[id], e.dir)
      && (e.gap ==> EventGap(e.product, e.head.version) in w.batches[id].gaps)
      && Joins(w.batches[id], e)
      && TotalUsage(w.batches) + overhead + e.bytes <= w.quota
    case SwapPointer(source, id) =>
      && Writable(w, id) && id !in w.published
      && w.batches[id].descriptor.value.source == source
      && w.batches[id].descriptor.value.previous == ActiveOf(w, source)
      && Settled(w, source)
      && (source in w.active && w.active[source] in w.batches ==>
            Continues(w.batches[w.active[source]], w.batches[id]))
    case SealBatch(source, id) =>
      && id in w.batches && source in w.active
      && (PreviousOf(w, source) == Some(id) || (w.active[source] == id && Settled(w, source)))
    case DropPointer(source) =>
      source in w.active && w.active[source] in w.batches && w.batches[w.active[source]].sealed && Settled(w, source)
    case ShredBatch(id, remains) =>
      && Sweepable(w, id) && !remains.whole && !remains.sealed && remains.usage <= w.batches[id].usage
      && (remains.descriptor.None? || remains.descriptor == w.batches[id].descriptor)
    case RemoveBatch(id) => Sweepable(w, id)
    case Choose(id) =>
      && w.worker.Resting? && id in w.batches && w.batches[id].sealed && w.batches[id].descriptor.Some?
      && ActiveOf(w, w.batches[id].descriptor.value.source) != Some(id)
    case StoreCopy => w.worker.Chosen? && w.worker.id in w.batches
    case StoreFails(partial) => w.worker.Chosen?
    case VerifyCopy => w.worker.Stored?
    case MoveAway => w.worker.Verified? && w.worker.id in w.batches
    case Purge(id) => true
    case PruneOldest => |w.repository| > 1
    case Stop => true
    case LateGap(id) => id in w.published
  }

  // ----- What the writes do -----

  function Put(w: World, id: BatchId, b: Batch): World { w.(batches := w.batches[id := b]) }

  /** The repository without the archive of that name; a retry rebuilds it. */
  function Unnamed(repository: seq<(BatchId, Batch)>, id: BatchId): seq<(BatchId, Batch)> {
    if repository == [] then []
    else (if repository[0].0 == id then [] else [repository[0]]) + Unnamed(repository[1..], id)
  }

  function Apply(w: World, a: Action): World
    requires Enabled(w, a)
  {
    match a
    case MakeBatch(id) => Put(w, id, NEW_BATCH).(names := w.names + {id})
    case DescribeBatch(id, d) => Put(w, id, w.batches[id].(descriptor := Some(d)))
    case CreateIndex(id) => Put(w, id, w.batches[id].(indexed := true))
    case MakeEventDir(id, dir) => Put(w, id, w.batches[id].(dirs := w.batches[id].dirs + {dir}))
    case DropEventDir(id, dir) => Put(w, id, w.batches[id].(dirs := w.batches[id].dirs - {dir}))
    case NoteGap(id, gap) => Put(w, id, w.batches[id].(gaps := w.batches[id].gaps + {gap}))
    case NoteProgress(id, at) => Put(w, id, w.batches[id].(progress := Some(at)))
    case CommitEvent(id, e, _) =>
      var b := w.batches[id];
      Put(w, id, b.(events := b.events + [e], heads := b.heads[e.product := e.head], usage := b.usage + e.bytes))
    case SwapPointer(source, id) => w.(active := w.active[source := id], published := w.published + {id})
    case SealBatch(_, id) => Put(w, id, w.batches[id].(sealed := true))
    case DropPointer(source) => w.(active := w.active - {source})
    case ShredBatch(id, remains) => Put(w, id, remains)
    case RemoveBatch(id) => w.(batches := w.batches - {id})
    case Choose(id) => w.(worker := Chosen(id))
    case StoreCopy =>
      var id := w.worker.id;
      w.(repository := Unnamed(w.repository, id) + [(id, w.batches[id])], worker := Stored(id, w.batches[id]))
    case StoreFails(partial) =>
      var id := w.worker.id;
      w.(repository := Unnamed(w.repository, id) + (if partial.Some? then [(id, partial.value)] else []),
         worker := Resting)
    case VerifyCopy => w.(worker := Verified(w.worker.id, w.worker.copy))
    case MoveAway =>
      var id := w.worker.id;
      w.(batches := w.batches - {id}, garbage := w.garbage + {id}, worker := Resting,
         departed := w.departed[id := Departure(w.batches[id], w.worker.copy)])
    case Purge(id) => w.(garbage := w.garbage - {id})
    case PruneOldest => w.(repository := w.repository[1..])
    case Stop => w.(worker := Resting)
    case LateGap(id) =>
      var b := if id in w.batches then w.batches[id] else NEW_BATCH.(whole := false);
      Put(w, id, b.(gaps := b.gaps + {RetirementGap}))
  }

  function Initial(quota: nat): World {
    World(quota, map[], map[], {}, [], Resting, {}, {}, map[])
  }

  ghost predicate IsRun(w: World, run: seq<Action>)
    decreases |run|, 0
  {
    run == [] || (IsRun(w, run[..|run| - 1]) && Enabled(After(w, run[..|run| - 1]), run[|run| - 1]))
  }

  /** The state after a whole run of durable writes; a crash is a run that ends early. */
  function After(w: World, run: seq<Action>): World
    requires IsRun(w, run)
    decreases |run|, 1
  {
    if run == [] then w else Apply(After(w, run[..|run| - 1]), run[|run| - 1])
  }
}
