/**
 Channel generations, the link that names the serving one and the registry of GC roots
 (tools/release_reconciler.py, tools/reconcile_prod_releases.py), one durable write at a time.
 Publication GC keeps what the registry lists, so what is served must always be listed.
 */
module Generations {
  import opened Wrappers

  type Tag = string
  type InstanceId = string
  type GenId = string

  /** A `current_artifacts.json` inside a generation: a channel's, or one release's. */
  datatype Local = Channel(name: string) | ForRelease(tag: Tag)
  /** A path in the registry: a daemon's launch files, or a manifest of a generation. */
  datatype Path = Launch(id: InstanceId) | InGeneration(gen: GenId, local: Local)

  /** The manifests present, the `gc-root-manifests.json` written last, and the lease in `retirement.json`. */
  datatype Generation = Generation(files: set<Local>, roots: Option<seq<Local>>, marker: Option<int>)

  datatype Disk = Disk(
    generations: map<GenId, Generation>, link: Option<GenId>, registry: Option<set<Path>>, launches: set<InstanceId>)

  predicate Readable(g: Generation) {
    g.roots.Some? && g.roots.value != [] && forall i | 0 <= i < |g.roots.value| :: g.roots.value[i] in g.files
  }

  /** `_generation_gc_paths`, where it does not raise. */
  function GcPaths(d: Disk, gen: GenId): set<Path>
    requires gen in d.generations && Readable(d.generations[gen])
  {
    set i | 0 <= i < |d.generations[gen].roots.value| :: InGeneration(gen, d.generations[gen].roots.value[i])
  }

  predicate Exists(d: Disk, p: Path) {
    match p
    case Launch(id) => id in d.launches
    case InGeneration(gen, local) => gen in d.generations && local in d.generations[gen].files
  }

  predicate Listed(d: Disk, p: Path) { d.registry.Some? && p in d.registry.value }

  /** Every manifest of the generation is listed. */
  ghost predicate RootedIn(d: Disk, gen: GenId) {
    gen in d.generations && Readable(d.generations[gen]) && d.registry.Some? && GcPaths(d, gen) <= d.registry.value
  }

  /** What is served is protected from GC. */
  ghost predicate Rooted(d: Disk) { d.link.Some? ==> RootedIn(d, d.link.value) }

  /** Nothing listed is missing. */
  ghost predicate Closed(d: Disk) { forall p | Listed(d, p) :: Exists(d, p) }

  // ----- Durable steps -----

  /**
   The disk, and where the controller is: `pending` has been rooted for an activation, `condemned`
   were found expired by the maintenance that last rewrote the registry, `clearing` is a failed
   generation that an activation is about to build again.
   */
  datatype State = State(disk: Disk, pending: Option<GenId>, condemned: set<GenId>, clearing: Option<GenId>)

  datatype Action =
    | Mark(gen: GenId, until: int)
    | Root(gen: GenId, paths: set<Path>)
    | Switch(gen: GenId)
    | Pin(ids: set<InstanceId>)
    | Unpin(ids: set<InstanceId>)
    | Trim(paths: set<Path>, expired: set<GenId>)
    | BeginClear(gen: GenId)
    | Shrink(gen: GenId, files: set<Local>, left: Option<seq<Local>>, marker: Option<int>)
    | Remove(gen: GenId)
    | Make(gen: GenId)
    | Write(gen: GenId, local: Local)
    | List(gen: GenId, roots: seq<Local>)
    | AddLaunch(id: InstanceId)
    | DropLaunch(id: InstanceId)
    | Crash

  function LaunchPaths(ids: set<InstanceId>): set<Path> { set id | id in ids :: Launch(id) }

  ghost predicate AllExist(d: Disk, paths: set<Path>) { forall p | p in paths :: Exists(d, p) }

  /** The new registry keeps the serving generation. */
  ghost predicate KeepsLink(d: Disk, paths: set<Path>) {
    d.link.Some? ==>
        d.link.value in d.generations && Readable(d.generations[d.link.value]) && GcPaths(d, d.link.value) <= paths
  }

  ghost predicate Enabled(s: State, a: Action) {
    var d := s.disk;
    match a
    case Mark(gen, _) => gen in d.generations
    case Root(gen, paths) =>
      gen in d.generations && Readable(d.generations[gen]) && GcPaths(d, gen) <= paths && KeepsLink(d, paths)
      && AllExist(d, paths)
    case Switch(gen) => s.pending == Some(gen)
    case Pin(_) => true
    case Unpin(_) => true
    case Trim(paths, expired) =>
      && KeepsLink(d, paths) && AllExist(d, paths)
      && (forall gen | gen in expired :: d.link != Some(gen))
      && (forall p | p in paths && p.InGeneration? :: p.gen !in expired)
    case BeginClear(gen) => d.link != Some(gen)
    case Shrink(gen, files, left, marker) =>
      && (gen in s.condemned || s.clearing == Some(gen)) && gen in d.generations
      && files <= d.generations[gen].files && (left.None? || left == d.generations[gen].roots)
    case Remove(gen) => gen in s.condemned || s.clearing == Some(gen)
    case Make(gen) => gen !in d.generations
    case Write(gen, _) => gen in d.generations
    case List(gen, _) => gen in d.generations && d.generations[gen].roots.None?
    case AddLaunch(_) => true
    case DropLaunch(id) => !Listed(d, Launch(id))
    case Crash => true
  }

  function Update(d: Disk, gen: GenId, g: Generation): Disk { d.(generations := d.generations[gen := g]) }

  function Registry(d: Disk): set<Path> { if d.registry.Some? then d.registry.value else {} }

  function Apply(s: State, a: Action): State
    requires Enabled(s, a)
  {
    var d := s.disk;
    match a
    case Mark(gen, until) => s.(disk := Update(d, gen, d.generations[gen].(marker := Some(until))))
    case Root(gen, paths) => State(d.(registry := Some(paths)), Some(gen), {}, None)
    case Switch(gen) => s.(disk := d.(link := Some(gen)), pending := None)
    case Pin(ids) => s.(disk := d.(registry := Some(Registry(d) + LaunchPaths(ids))))
    case Unpin(ids) => s.(disk := d.(registry := Some(Registry(d) - LaunchPaths(ids))))
    case Trim(paths, expired) => State(d.(registry := Some(paths)), None, expired, None)
    case BeginClear(gen) => State(d, None, {}, Some(gen))
    case Shrink(gen, files, left, marker) => s.(disk := Update(d, gen, Generation(files, left, marker)))
    case Remove(gen) => s.(disk := d.(generations := d.generations - {gen}))
    case Make(gen) => s.(disk := Update(d, gen, Generation({}, None, None)))
    case Write(gen, local) => s.(disk := Update(d, gen,
                                d.generations[gen].(files := d.generations[gen].files + {local})))
    case List(gen, roots) => s.(disk := Update(d, gen, d.generations[gen].(roots := Some(roots))))
    case AddLaunch(id) => s.(disk := d.(launches := d.launches + {id}))
    case DropLaunch(id) => s.(disk := d.(launches := d.launches - {id}))
    case Crash => State(d, None, {}, None)
  }

  ghost predicate IsRun(s: State, run: seq<Action>)
    decreases |run|, 0
  {
    run == [] || (IsRun(s, run[..|run| - 1]) && Enabled(After(s, run[..|run| - 1]), run[|run| - 1]))
  }

  ghost function After(s: State, run: seq<Action>): State
    requires IsRun(s, run)
    decreases |run|, 1
  {
    if run == [] then s else Apply(After(s, run[..|run| - 1]), run[|run| - 1])
  }

  lemma {:induction false} RunPrefix(s: State, run: seq<Action>, k: nat)
    requires IsRun(s, run) && k <= |run|
    ensures IsRun(s, run[..k])
    decreases |run|
  {
    if k < |run| {
      RunPrefix(s, run[..|run| - 1], k);
      assert run[..|run| - 1][..k] == run[..k];
    } else {
      assert run[..k] == run;
    }
  }

  // ----- What is served is always listed -----

  /** What the controller may rely on between two of its own steps. */
  ghost predicate Guarded(s: State) {
    && (s.pending.Some? ==> RootedIn(s.disk, s.pending.value) && s.condemned == {} && s.clearing.None?)
    && (forall gen | gen in s.condemned :: s.disk.link != Some(gen) && Unlisted(s.disk, gen))
    && (s.clearing.Some? ==> s.disk.link != s.clearing)
  }

  ghost predicate Unlisted(d: Disk, gen: GenId) { forall p | Listed(d, p) && p.InGeneration? :: p.gen != gen }

  /** Rooting depends on the generation's own roots and files and on the registry. */
  lemma RootedFrame(d: Disk, d': Disk, gen: GenId)
    requires RootedIn(d, gen) && gen in d'.generations && d'.registry.Some?
    requires d'.generations[gen].roots == d.generations[gen].roots
    requires d.generations[gen].files <= d'.generations[gen].files
    requires forall p | p in d.registry.value && p.InGeneration? :: p in d'.registry.value
    ensures RootedIn(d', gen)
  {
    assert GcPaths(d', gen) == GcPaths(d, gen);
  }

  ghost predicate Disturbs(a: Action) { a.Root? || a.Trim? || a.Shrink? || a.Remove? || a.Switch? }

  /** Steps other than registry rewrites and deletions leave every rooted generation rooted. */
  lemma QuietStep(s: State, a: Action, gen: GenId)
    requires Enabled(s, a) && !Disturbs(a) && RootedIn(s.disk, gen)
    ensures RootedIn(Apply(s, a).disk, gen)
  {
    RootedFrame(s.disk, Apply(s, a).disk, gen);
  }

  lemma DeletionStep(s: State, a: Action, gen: GenId)
    requires Enabled(s, a) && (a.Shrink? || a.Remove?) && RootedIn(s.disk, gen) && a.gen != gen
    ensures RootedIn(Apply(s, a).disk, gen)
  {
    RootedFrame(s.disk, Apply(s, a).disk, gen);
  }

  lemma RewriteStep(s: State, a: Action)
    requires Enabled(s, a) && (a.Root? || a.Trim?)
    ensures Rooted(Apply(s, a).disk)
    ensures a.Root? ==> RootedIn(Apply(s, a).disk, a.gen)
  {
    var d, d' := s.disk, Apply(s, a).disk;
    if d.link.Some? { assert GcPaths(d', d.link.value) == GcPaths(d, d.link.value); }
    if a.Root? { assert GcPaths(d', a.gen) == GcPaths(d, a.gen); }
  }

  /** The serving generation stays rooted through every step; a switch roots it whatever came before. */
  lemma RootedStep(s: State, a: Action)
    requires Enabled(s, a) && Guarded(s) && (Rooted(s.disk) || a.Switch? || a.Root?)
    ensures Rooted(Apply(s, a).disk)
  {
    match a {
      case Root(_, _) => RewriteStep(s, a);
      case Trim(_, _) => RewriteStep(s, a);
      case Switch(gen) => assert GcPaths(Apply(s, a).disk, gen) == GcPaths(s.disk, gen);
      case Shrink(_, _, _, _) => if s.disk.link.Some? { DeletionStep(s, a, s.disk.link.value); }
      case Remove(_) => if s.disk.link.Some? { DeletionStep(s, a, s.disk.link.value); }
      case _ => if s.disk.link.Some? { QuietStep(s, a, s.disk.link.value); }
    }
  }

  lemma GuardedStep(s: State, a: Action)
    requires Enabled(s, a) && Guarded(s)
    ensures Guarded(Apply(s, a))
  {
    var s' := Apply(s, a);
    if s'.pending.Some? {
      if a.Root? { RewriteStep(s, a); } else { QuietStep(s, a, s'.pending.value); }
    }
    forall gen | gen in s'.condemned ensures Unlisted(s'.disk, gen) { assert a.Trim? || Unlisted(s.disk, gen); }
  }

  lemma {:induction false} RunGuarded(s: State, run: seq<Action>)
    requires Guarded(s) && IsRun(s, run)
    ensures Guarded(After(s, run))
  {
    if run != [] {
      RunGuarded(s, run[..|run| - 1]);
      GuardedStep(After(s, run[..|run| - 1]), run[|run| - 1]);
    }
  }

  /** The action has rewritten the registry for an activation, or completed one. */
  ghost predicate Activated(run: seq<Action>) { exists i | 0 <= i < |run| :: run[i].Root? || run[i].Switch? }

  lemma ActivatedLast(run: seq<Action>)
    requires Activated(run)
    ensures run != [] && (Activated(run[..|run| - 1]) || run[|run| - 1].Root? || run[|run| - 1].Switch?)
  {
    var i :| 0 <= i < |run| && (run[i].Root? || run[i].Switch?);
    if i < |run| - 1 { assert run[..|run| - 1][i] == run[i]; }
  }

  /**
   At every point of every run, crashes included, everything served is listed in the registry: from
   the first activation's registry write on, or from the start if it was so then.
   */
  lemma {:induction false} ServedIsListed(s: State, run: seq<Action>)
    requires Guarded(s) && IsRun(s, run) && (Rooted(s.disk) || Activated(run))
    ensures Rooted(After(s, run).disk)
  {
    if run != [] {
      var before, a := run[..|run| - 1], run[|run| - 1];
      RunGuarded(s, before);
      if Rooted(s.disk) || Activated(before) {
        ServedIsListed(s, before);
      } else {
        ActivatedLast(run);
      }
      RootedStep(After(s, before), a);
    }
  }

  /**
   Maintenance deletes from a generation only after all of its manifests have left the registry, and
   never the serving one.
   */
  lemma DeletionIsUnlisted(s: State, run: seq<Action>, a: Action)
    requires Guarded(s) && IsRun(s, run + [a]) && (a.Shrink? || a.Remove?)
    ensures var d := After(s, run).disk;
            && IsRun(s, run) && d.link != Some(a.gen)
            && (After(s, run).clearing != Some(a.gen) ==> Unlisted(d, a.gen))
  {
    assert (run + [a])[..|run|] == run;
    RunGuarded(s, run);
  }

  // ----- When something listed is missing -----

  /**
   Every step keeps the registry free of missing files, except the deletion of a generation that is
   being built again and the pinning of a daemon whose launch files are gone.
   */
  lemma ClosedStep(s: State, a: Action)
    requires Enabled(s, a) && Guarded(s) && Closed(s.disk)
    requires (a.Shrink? || a.Remove?) ==> s.clearing != Some(a.gen)
    requires a.Pin? ==> a.ids <= s.disk.launches
    ensures Closed(Apply(s, a).disk)
  {
    var d, d' := s.disk, Apply(s, a).disk;
    forall p | Listed(d', p) ensures Exists(d', p) {
      if a.Root? || a.Trim? {
        assert p in a.paths;
      } else if a.Pin? && p in LaunchPaths(a.ids) {
        assert p.id in d.launches;
      } else {
        assert Listed(d, p);
        if a.Shrink? || a.Remove? { assert Unlisted(d, a.gen); }
      }
    }
  }

  /** Pinning is not checked: it keeps it so exactly if every daemon still has its launch files. */
  lemma PinnedIsClosedIff(s: State, ids: set<InstanceId>)
    requires Closed(s.disk)
    ensures Closed(Apply(s, Pin(ids)).disk) <==> ids <= s.disk.launches
  {
    var d, d' := s.disk, Apply(s, Pin(ids)).disk;
    if Closed(d') {
      forall id | id in ids ensures id in d.launches { assert Listed(d', Launch(id)) && Exists(d', Launch(id)); }
    }
    if ids <= d.launches {
      forall p | Listed(d', p) ensures Exists(d', p) { assert p in LaunchPaths(ids) || Listed(d, p); }
    }
  }

  /** That deletion keeps it so exactly if no manifest of the failed generation is listed. */
  lemma ClearedIsClosedIff(s: State, gen: GenId)
    requires Enabled(s, Remove(gen)) && Closed(s.disk)
    ensures Closed(Apply(s, Remove(gen)).disk) <==> Unlisted(s.disk, gen)
  {
    var d, d' := s.disk, Apply(s, Remove(gen)).disk;
    if Closed(d') {
      forall p | Listed(d, p) && p.InGeneration? ensures p.gen != gen { assert Listed(d', p) && Exists(d', p); }
    }
    if Unlisted(d, gen) {
      forall p | Listed(d', p) ensures Exists(d', p) { assert Listed(d, p) && Exists(d, p); }
    }
  }

  /** And building it again repairs the registry exactly if every listed manifest of it is written again. */
  lemma RebuiltIsClosedIff(d: Disk, gen: GenId, g: Generation)
    requires forall p | Listed(d, p) && !(p.InGeneration? && p.gen == gen) :: Exists(d, p)
    ensures Closed(Update(d, gen, g)) <==> forall local | Listed(d, InGeneration(gen, local)) :: local in g.files
  {
    var d' := Update(d, gen, g);
    if Closed(d') {
      forall local | Listed(d, InGeneration(gen, local))
        ensures local in g.files
      {
        assert Exists(d', InGeneration(gen, local));
      }
    }
    if forall local | Listed(d, InGeneration(gen, local)) :: local in g.files {
      forall p | Listed(d', p) ensures Exists(d', p) { assert Listed(d, p); }
    }
  }

  /** A manifest of a generation is listed and missing. */
  ghost predicate Wedged(d: Disk, p: Path) { p.InGeneration? && Listed(d, p) && !Exists(d, p) }

  /** The steps a controller run takes before it plans retention: daemons are pinned and retired. */
  predicate BeforeRetention(a: Action) { a.Pin? || a.Unpin? || a.AddLaunch? || a.DropLaunch? || a.Crash? }

  lemma {:induction false} WedgedStays(s: State, run: seq<Action>, p: Path)
    requires IsRun(s, run) && Wedged(s.disk, p) && forall i | 0 <= i < |run| :: BeforeRetention(run[i])
    ensures Wedged(After(s, run).disk, p)
  {
    if run != [] {
      WedgedStays(s, run[..|run| - 1], p);
      assert BeforeRetention(run[|run| - 1]);
    }
  }
}
