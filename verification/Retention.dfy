/** `generation_retention` of tools/release_reconciler.py: which generations keep their files, and until when. */
module Retention {
  import opened Wrappers
  import opened Generations

  /** `RELEASE_DRAIN_GRACE`, in seconds. */
  const GRACE := 3600

  datatype Retained = Retained(retained: set<GenId>, expired: set<GenId>, paths: set<Path>, tags: set<Tag>)

  /** The generations of which some manifest is listed. */
  function ListedGenerations(d: Disk): set<GenId> { set p | p in Registry(d) && p.InGeneration? :: p.gen }

  /** A listed generation without a lease gets one when first seen. */
  function Started(d: Disk, now: int, gen: GenId): Option<int>
    requires gen in d.generations
  {
    if d.generations[gen].marker.None? && gen in ListedGenerations(d) then Some(now + GRACE)
    else d.generations[gen].marker
  }

  predicate Extends(now: int, drains: map<Tag, int>, local: Local, until: Option<int>) {
    local.ForRelease? && local.tag in drains && drains[local.tag] > now
    && (until.None? || drains[local.tag] > until.value)
  }

  /** Prolongs the lease to the drain deadlines of the releases it roots, in the order they are listed. */
  function Extend(now: int, drains: map<Tag, int>, locals: seq<Local>, until: Option<int>): Option<int> {
    if locals == [] then until
    else
      var next := if Extends(now, drains, locals[0], until) then Some(drains[locals[0].tag]) else until;
      Extend(now, drains, locals[1..], next)
  }

  function Lease(d: Disk, now: int, drains: map<Tag, int>, gen: GenId): Option<int>
    requires gen in d.generations
  {
    if gen in ListedGenerations(d) && Readable(d.generations[gen])
    then Extend(now, drains, d.generations[gen].roots.value, Started(d, now, gen))
    else Started(d, now, gen)
  }

  predicate Keeps(d: Disk, now: int, drains: map<Tag, int>, gen: GenId)
    requires gen in d.generations
  {
    d.link == Some(gen) || (Lease(d, now, drains, gen).Some? && Lease(d, now, drains, gen).value > now)
  }

  function Kept(d: Disk, now: int, drains: map<Tag, int>): set<GenId> {
    set gen | gen in d.generations && Keeps(d, now, drains, gen)
  }

  /** What is checked before any lease is looked at. */
  predicate Checked(d: Disk) {
    && d.link.Some? && d.link.value in d.generations
    && (d.registry.Some? ==> d.registry.value != {} && forall p | p in d.registry.value :: Exists(d, p))
  }

  /** Drain deadlines are looked up in the listed generations, which must then be readable. */
  predicate LeaseReadable(d: Disk, drains: map<Tag, int>, gen: GenId)
    requires gen in d.generations
  {
    gen in ListedGenerations(d) && drains != map[] ==> Readable(d.generations[gen])
  }

  predicate LeasesReadable(d: Disk, drains: map<Tag, int>) {
    forall gen | gen in d.generations && d.link != Some(gen) :: LeaseReadable(d, drains, gen)
  }

  predicate AllReadable(d: Disk, gens: set<GenId>) {
    forall gen | gen in gens :: gen in d.generations && Readable(d.generations[gen])
  }

  predicate Readables(d: Disk, now: int, drains: map<Tag, int>) {
    LeasesReadable(d, drains) && AllReadable(d, Kept(d, now, drains))
  }

  function RootList(d: Disk, gen: GenId): seq<Local> {
    if gen in d.generations && d.generations[gen].roots.Some? then d.generations[gen].roots.value else []
  }

  function PathsOf(d: Disk, gens: set<GenId>): set<Path> {
    set gen, i | gen in gens && 0 <= i < |RootList(d, gen)| :: InGeneration(gen, RootList(d, gen)[i])
  }

  function TagsIn(paths: set<Path>): set<Tag> {
    set p | p in paths && p.InGeneration? && p.local.ForRelease? :: p.local.tag
  }

  /** The plan; none where the code raises. */
  function Plan(d: Disk, now: int, drains: map<Tag, int>, pins: set<InstanceId>): Option<Retained> {
    if !(pins <= d.launches) then None
    else if d.link.None? then Some(Retained({}, {}, LaunchPaths(pins), {}))
    else if !Checked(d) || !Readables(d, now, drains) then None
    else
      var kept := Kept(d, now, drains);
      var paths := LaunchPaths(pins) + PathsOf(d, kept);
      Some(Retained(kept, d.generations.Keys - kept, paths, TagsIn(paths)))
  }

  /** The disk with the leases the plan was made with. */
  function Marked(d: Disk, now: int, drains: map<Tag, int>): Disk {
    d.(generations := map gen | gen in d.generations ::
         if d.link == Some(gen) then d.generations[gen] else d.generations[gen].(marker := Lease(d, now, drains, gen)))
  }

  // ----- Leases -----

  lemma {:induction false} ExtendMeans(now: int, drains: map<Tag, int>, locals: seq<Local>, until: Option<int>)
    ensures var e := Extend(now, drains, locals, until);
            && (until.Some? ==> e.Some? && e.value >= until.value)
            && (e == until || (e.Some? && (until.None? || e.value > until.value)
                               && exists tag | tag in drains ::
                                    ForRelease(tag) in locals && drains[tag] == e.value && e.value > now))
            && (forall tag | tag in drains && ForRelease(tag) in locals && drains[tag] > now ::
                  e.Some? && e.value >= drains[tag])
  {
    if locals != [] {
      var first := if Extends(now, drains, locals[0], until) then Some(drains[locals[0].tag]) else until;
      ExtendMeans(now, drains, locals[1..], first);
      assert locals == [locals[0]] + locals[1..];
      assert forall l :: l in locals <==> l == locals[0] || l in locals[1..];
      if first != until { assert locals[0].tag in drains && ForRelease(locals[0].tag) in locals; }
    }
  }

  lemma {:induction false} ExtendNothing(now: int, drains: map<Tag, int>, locals: seq<Local>, until: Option<int>)
    requires forall tag | tag in drains && ForRelease(tag) in locals && drains[tag] > now ::
               until.Some? && until.value >= drains[tag]
    ensures Extend(now, drains, locals, until) == until
  {
    if locals != [] {
      assert locals[0].ForRelease? && locals[0].tag in drains ==> ForRelease(locals[0].tag) in locals;
      assert forall l :: l in locals[1..] ==> l in locals;
      ExtendNothing(now, drains, locals[1..], until);
    }
  }

  /** The release's manifest in this generation is listed among its roots. */
  ghost predicate RootsRelease(d: Disk, gen: GenId, tag: Tag)
    requires gen in d.generations
  {
    d.generations[gen].roots.Some? && ForRelease(tag) in d.generations[gen].roots.value
  }

  /**
   An existing lease never moves, except to the drain deadline, still in the future, of a release
   that the generation roots; a first lease is one grace period, or such a deadline.
   */
  lemma LeasesDoNotSlide(d: Disk, now: int, drains: map<Tag, int>, gen: GenId)
    requires gen in d.generations
    ensures var before, after := d.generations[gen].marker, Lease(d, now, drains, gen);
            || after == before
            || (&& gen in ListedGenerations(d) && after.Some? && (before.Some? ==> after.value > before.value)
                && ((before.None? && after.value == now + GRACE)
                    || exists tag | tag in drains ::
                         RootsRelease(d, gen, tag) && drains[tag] == after.value && after.value > now))
  {
    if gen in ListedGenerations(d) && Readable(d.generations[gen]) {
      ExtendMeans(now, drains, d.generations[gen].roots.value, Started(d, now, gen));
    }
  }

  lemma LeaseSettles(d: Disk, now: int, later: int, drains: map<Tag, int>, gen: GenId)
    requires gen in d.generations && now <= later && d.link != Some(gen)
    ensures var m := Marked(d, now, drains);
            gen in m.generations && Lease(m, later, drains, gen) == Lease(d, now, drains, gen)
  {
    var m := Marked(d, now, drains);
    assert ListedGenerations(m) == ListedGenerations(d);
    var lease := Lease(d, now, drains, gen);
    assert m.generations[gen] == d.generations[gen].(marker := lease);
    if gen in ListedGenerations(d) {
      assert Started(d, now, gen).Some?;
      if Readable(d.generations[gen]) {
        ExtendMeans(now, drains, d.generations[gen].roots.value, Started(d, now, gen));
        ExtendNothing(later, drains, d.generations[gen].roots.value, lease);
      }
    }
  }

  // ----- Plans -----

  /** Some manifest of the generation is listed in the registry. */
  ghost predicate AnyListed(d: Disk, gen: GenId) { exists local :: Listed(d, InGeneration(gen, local)) }

  /** The generation holds the manifest of a release whose drain is still running. */
  ghost predicate Drains(d: Disk, now: int, drains: map<Tag, int>, gen: GenId)
    requires gen in d.generations
  {
    exists tag | tag in drains :: RootsRelease(d, gen, tag) && drains[tag] > now
  }

  /**
   Who stays: the serving generation; one whose marker is in the future; and of those listed one without
   a marker, or with a release that still drains.
   */
  ghost predicate Stays(d: Disk, now: int, drains: map<Tag, int>, gen: GenId)
    requires gen in d.generations
  {
    || d.link == Some(gen)
    || (d.generations[gen].marker.Some? && d.generations[gen].marker.value > now)
    || (AnyListed(d, gen) && (d.generations[gen].marker.None? || Drains(d, now, drains, gen)))
  }

  /** The marker afterwards: unlisted generations keep theirs, the others get the latest deadline that applies. */
  ghost predicate MarkedSo(d: Disk, now: int, drains: map<Tag, int>, gen: GenId, marker: Option<int>)
    requires gen in d.generations
  {
    var was := d.generations[gen].marker;
    if !AnyListed(d, gen) then marker == was
    else
      var first := if was.Some? then was.value else now + 3600;
      && marker.Some? && marker.value >= first
      && (marker.value == first || exists tag | tag in drains ::
            RootsRelease(d, gen, tag) && drains[tag] > now && marker.value == drains[tag])
      && forall tag | tag in drains && RootsRelease(d, gen, tag) && drains[tag] > now :: marker.value >= drains[tag]
  }

  lemma AnyListedIff(d: Disk, gen: GenId)
    ensures AnyListed(d, gen) <==> gen in ListedGenerations(d)
  {
    if gen in ListedGenerations(d) {
      var p :| p in Registry(d) && p.InGeneration? && p.gen == gen;
      assert Listed(d, InGeneration(gen, p.local));
    }
  }

  lemma LeaseIsLatest(d: Disk, now: int, drains: map<Tag, int>, gen: GenId)
    requires gen in d.generations && LeaseReadable(d, drains, gen)
    ensures MarkedSo(d, now, drains, gen, Lease(d, now, drains, gen))
    ensures d.link != Some(gen) ==> (Keeps(d, now, drains, gen) <==> Stays(d, now, drains, gen))
  {
    AnyListedIff(d, gen);
    if gen in ListedGenerations(d) && Readable(d.generations[gen]) {
      ExtendMeans(now, drains, d.generations[gen].roots.value, Started(d, now, gen));
    }
  }

  /**
   A plan divides the generations on disk into those that stay and the expired ones, of which nothing
   stays listed.
   */
  lemma RetainedIff(d: Disk, now: int, drains: map<Tag, int>, pins: set<InstanceId>, gen: GenId)
    requires Plan(d, now, drains, pins).Some? && d.link.Some?
    ensures var plan := Plan(d, now, drains, pins).value;
            && (gen in plan.retained <==> gen in d.generations && Stays(d, now, drains, gen))
            && (gen in plan.expired <==> gen in d.generations && !Stays(d, now, drains, gen))
            && forall local :: InGeneration(gen, local) in plan.paths <==>
                 gen in plan.retained && d.generations[gen].roots.Some? && local in d.generations[gen].roots.value
    ensures forall id :: Launch(id) in Plan(d, now, drains, pins).value.paths <==> id in pins
  {
    if gen in d.generations && d.link != Some(gen) { LeaseIsLatest(d, now, drains, gen); }
    var kept := Kept(d, now, drains);
    forall local | gen in kept && local in d.generations[gen].roots.value
      ensures InGeneration(gen, local) in PathsOf(d, kept)
    {
      var i :| 0 <= i < |RootList(d, gen)| && RootList(d, gen)[i] == local;
      assert InGeneration(gen, RootList(d, gen)[i]) in PathsOf(d, kept);
    }
  }

  /** The serving generation is always kept, and all of its manifests with it. */
  lemma ActiveIsKept(d: Disk, now: int, drains: map<Tag, int>, pins: set<InstanceId>)
    requires Plan(d, now, drains, pins).Some? && d.link.Some?
    ensures var plan := Plan(d, now, drains, pins).value;
            && d.link.value in plan.retained && d.link.value !in plan.expired
            && d.link.value in d.generations && Readable(d.generations[d.link.value])
            && GcPaths(d, d.link.value) <= plan.paths
  {
    var gen, kept := d.link.value, Kept(d, now, drains);
    forall p | p in GcPaths(d, gen) ensures p in PathsOf(d, kept) {
      var i :| 0 <= i < |d.generations[gen].roots.value| && p == InGeneration(gen, d.generations[gen].roots.value[i]);
      assert gen in kept && p == InGeneration(gen, RootList(d, gen)[i]);
    }
  }

  /** The releases a plan protects: those of which a generation that stays holds the manifest. */
  lemma ProtectedIff(d: Disk, now: int, drains: map<Tag, int>, pins: set<InstanceId>, tag: Tag)
    requires Plan(d, now, drains, pins).Some? && d.link.Some?
    ensures tag in Plan(d, now, drains, pins).value.tags <==>
              exists gen | gen in d.generations :: Stays(d, now, drains, gen) && RootsRelease(d, gen, tag)
  {
    var plan := Plan(d, now, drains, pins).value;
    if tag in plan.tags {
      var p :| p in plan.paths && p.InGeneration? && p.local == ForRelease(tag);
      RetainedIff(d, now, drains, pins, p.gen);
    }
    if gen :| gen in d.generations && Stays(d, now, drains, gen) && RootsRelease(d, gen, tag) {
      RetainedIff(d, now, drains, pins, gen);
      assert InGeneration(gen, ForRelease(tag)) in plan.paths;
    }
  }

  lemma RetainedByState(d: Disk, now: int, drains: map<Tag, int>, pins: set<InstanceId>)
    requires Plan(d, now, drains, pins).Some? && d.link.Some?
    ensures var plan, m := Plan(d, now, drains, pins).value, Marked(d, now, drains);
            forall gen | gen in d.generations ::
              && (gen in plan.retained <==> Stays(d, now, drains, gen))
              && (gen in plan.expired <==> !Stays(d, now, drains, gen))
              && (gen in plan.expired ==> forall local :: InGeneration(gen, local) !in plan.paths)
              && gen in m.generations
              && (d.link != Some(gen) ==> MarkedSo(d, now, drains, gen, m.generations[gen].marker))
  {
    forall gen | gen in d.generations
      ensures (gen in Plan(d, now, drains, pins).value.retained <==> Stays(d, now, drains, gen))
      ensures (gen in Plan(d, now, drains, pins).value.expired <==> !Stays(d, now, drains, gen))
      ensures gen in Plan(d, now, drains, pins).value.expired ==>
                forall local :: InGeneration(gen, local) !in Plan(d, now, drains, pins).value.paths
      ensures d.link != Some(gen) ==>
                MarkedSo(d, now, drains, gen, Marked(d, now, drains).generations[gen].marker)
    {
      RetainedIff(d, now, drains, pins, gen);
      if d.link != Some(gen) { LeaseIsLatest(d, now, drains, gen); }
    }
  }

  /**
   When a plan can be made: pinned launches exist, and if something is served then it exists, so does all that is
   listed, and whoever stays, or must be looked at for drains, is readable.
   */
  lemma PlannedIff(d: Disk, now: int, drains: map<Tag, int>, pins: set<InstanceId>)
    ensures Plan(d, now, drains, pins).Some? <==>
              && pins <= d.launches
              && (d.link.Some? ==>
                    && d.link.value in d.generations
                    && (d.registry.Some? ==> d.registry.value != {} && forall p | Listed(d, p) :: Exists(d, p))
                    && forall gen | gen in d.generations ::
                         Stays(d, now, drains, gen) || (drains != map[] && AnyListed(d, gen)) ==>
                           Readable(d.generations[gen]))
  {
    forall gen | gen in d.generations
      ensures AnyListed(d, gen) <==> gen in ListedGenerations(d)
      ensures LeaseReadable(d, drains, gen) ==> (Keeps(d, now, drains, gen) <==> Stays(d, now, drains, gen))
    {
      AnyListedIff(d, gen);
      if LeaseReadable(d, drains, gen) { LeaseIsLatest(d, now, drains, gen); }
    }
  }

  lemma KeptSettles(d: Disk, now: int, later: int, drains: map<Tag, int>)
    requires now <= later
    ensures Kept(Marked(d, now, drains), later, drains) <= Kept(d, now, drains)
    ensures now == later ==> Kept(Marked(d, now, drains), later, drains) == Kept(d, now, drains)
  {
    var m := Marked(d, now, drains);
    forall gen | gen in d.generations && d.link != Some(gen)
      ensures Lease(m, later, drains, gen) == Lease(d, now, drains, gen)
    {
      LeaseSettles(d, now, later, drains, gen);
    }
  }

  /**
   With the registry and the drains unchanged, a later plan succeeds too and retains nothing that was
   not retained before.
   */
  lemma RetentionShrinks(d: Disk, now: int, later: int, drains: map<Tag, int>, pins: set<InstanceId>)
    requires now <= later && Plan(d, now, drains, pins).Some?
    ensures var m := Marked(d, now, drains);
            && Plan(m, later, drains, pins).Some?
            && Plan(m, later, drains, pins).value.retained <= Plan(d, now, drains, pins).value.retained
  {
    KeptSettles(d, now, later, drains);
    var m := Marked(d, now, drains);
    assert ListedGenerations(m) == ListedGenerations(d);
    assert forall p :: Exists(m, p) == Exists(d, p);
  }

  /** Planning again at the same instant writes no lease and plans the same. */
  lemma RetentionIsIdempotent(d: Disk, now: int, drains: map<Tag, int>, pins: set<InstanceId>)
    ensures Marked(Marked(d, now, drains), now, drains) == Marked(d, now, drains)
    ensures Plan(Marked(d, now, drains), now, drains, pins) == Plan(d, now, drains, pins)
  {
    var m := Marked(d, now, drains);
    forall gen | gen in d.generations && d.link != Some(gen)
      ensures Lease(m, now, drains, gen) == Lease(d, now, drains, gen)
    {
      LeaseSettles(d, now, now, drains, gen);
    }
    KeptSettles(d, now, now, drains);
    PlanIgnoresMarkers(d, m, now, drains, pins);
  }

  /** Beyond the set of kept generations, a plan does not look at leases. */
  lemma PlanIgnoresMarkers(d: Disk, m: Disk, now: int, drains: map<Tag, int>, pins: set<InstanceId>)
    requires MarkersOnly(d, m) && Kept(m, now, drains) == Kept(d, now, drains)
    ensures Plan(m, now, drains, pins) == Plan(d, now, drains, pins)
  {
    assert ListedGenerations(m) == ListedGenerations(d);
    assert Checked(m) == Checked(d) by {
      assert forall p :: Exists(m, p) == Exists(d, p);
    }
    assert Readables(m, now, drains) == Readables(d, now, drains);
    PathsIgnoreMarkers(d, m, Kept(d, now, drains));
  }

  lemma PathsIgnoreMarkers(d: Disk, m: Disk, gens: set<GenId>)
    requires MarkersOnly(d, m)
    ensures PathsOf(m, gens) == PathsOf(d, gens) && AllReadable(m, gens) == AllReadable(d, gens)
  {
    assert forall gen :: RootList(m, gen) == RootList(d, gen);
  }

  ghost predicate MarkersOnly(d: Disk, m: Disk) {
    && m == d.(generations := m.generations) && m.generations.Keys == d.generations.Keys
    && forall gen | gen in d.generations ::
         m.generations[gen] == d.generations[gen].(marker := m.generations[gen].marker)
  }

  /** A generation's lease depends on no other generation's. */
  lemma LeaseIsLocal(d: Disk, m: Disk, now: int, drains: map<Tag, int>, gen: GenId)
    requires MarkersOnly(d, m) && gen in d.generations && m.generations[gen] == d.generations[gen]
    ensures Lease(m, now, drains, gen) == Lease(d, now, drains, gen)
  {
    assert ListedGenerations(m) == ListedGenerations(d);
  }

  /** The disk in the middle of the loop: these generations have had their turn. */
  function PartlyMarked(d: Disk, now: int, drains: map<Tag, int>, done: set<GenId>): Disk {
    d.(generations := map gen | gen in d.generations ::
         if d.link == Some(gen) || gen !in done then d.generations[gen]
         else d.generations[gen].(marker := Lease(d, now, drains, gen)))
  }

  lemma OneMoreMarked(d: Disk, now: int, drains: map<Tag, int>, done: set<GenId>, gen: GenId)
    requires gen in d.generations && gen !in done && d.link != Some(gen)
    ensures var m := PartlyMarked(d, now, drains, done);
            && MarkersOnly(d, m) && m.generations[gen] == d.generations[gen]
            && ListedGenerations(m) == ListedGenerations(d) && Lease(m, now, drains, gen) == Lease(d, now, drains, gen)
            && Update(m, gen, m.generations[gen].(marker := Lease(m, now, drains, gen)))
                 == PartlyMarked(d, now, drains, done + {gen})
  {
    var m := PartlyMarked(d, now, drains, done);
    LeaseIsLocal(d, m, now, drains, gen);
    assert Update(m, gen, m.generations[gen].(marker := Lease(m, now, drains, gen))).generations
        == PartlyMarked(d, now, drains, done + {gen}).generations;
  }

  function KeptOf(d: Disk, now: int, drains: map<Tag, int>, done: set<GenId>): set<GenId> {
    set gen | gen in done && gen in d.generations && Keeps(d, now, drains, gen)
  }

  predicate DoneReadable(d: Disk, drains: map<Tag, int>, done: set<GenId>) {
    forall gen | gen in done && gen in d.generations && d.link != Some(gen) :: LeaseReadable(d, drains, gen)
  }

  lemma OneMoreKept(d: Disk, now: int, drains: map<Tag, int>, done: set<GenId>, gen: GenId)
    requires gen in d.generations
    ensures KeptOf(d, now, drains, done + {gen})
         == if Keeps(d, now, drains, gen) then KeptOf(d, now, drains, done) + {gen} else KeptOf(d, now, drains, done)
    ensures DoneReadable(d, drains, done + {gen})
         <==> DoneReadable(d, drains, done) && (d.link == Some(gen) || LeaseReadable(d, drains, gen))
  {}

  lemma AllMarked(d: Disk, now: int, drains: map<Tag, int>)
    ensures PartlyMarked(d, now, drains, {}) == d
    ensures PartlyMarked(d, now, drains, d.generations.Keys) == Marked(d, now, drains)
    ensures MarkersOnly(d, Marked(d, now, drains))
    ensures KeptOf(d, now, drains, {}) == {} && KeptOf(d, now, drains, d.generations.Keys) == Kept(d, now, drains)
    ensures DoneReadable(d, drains, d.generations.Keys) <==> LeasesReadable(d, drains)
  {
    assert PartlyMarked(d, now, drains, {}).generations == d.generations;
    assert PartlyMarked(d, now, drains, d.generations.Keys).generations == Marked(d, now, drains).generations;
  }

  // ----- What the registry then lists -----

  lemma PlannedPathsExist(d: Disk, now: int, drains: map<Tag, int>, pins: set<InstanceId>)
    requires Plan(d, now, drains, pins).Some?
    ensures AllExist(d, Plan(d, now, drains, pins).value.paths)
    ensures forall p | p in Plan(d, now, drains, pins).value.paths && p.InGeneration? ::
              p.gen !in Plan(d, now, drains, pins).value.expired
  {}

  /**
   Once a listed manifest is missing, no retention can be planned any more: not by maintenance, not by
   an activation.
   */
  lemma WedgedHasNoPlan(d: Disk, now: int, drains: map<Tag, int>, pins: set<InstanceId>, p: Path)
    requires Wedged(d, p) && d.link.Some?
    ensures Plan(d, now, drains, pins).None?
  {}

  // ----- Activation -----

  function Renewed(d: Disk, gen: GenId, until: int): Disk
    requires gen in d.generations
  {
    Update(d, gen, d.generations[gen].(marker := Some(until)))
  }

  /** What an activation makes of the leases: those of the plan, and a grace period for both sides of the switch. */
  function SwitchLeases(d: Disk, now: int, gen: GenId): Disk
    requires gen in d.generations && (d.link.Some? ==> d.link.value in d.generations)
  {
    var m := if d.link.Some? then Marked(d, now, map[]) else d;
    Renewed(if d.link.Some? && d.link.value != gen then Renewed(m, d.link.value, now + GRACE) else m, gen, now + GRACE)
  }

  predicate CanSwitch(d: Disk, now: int, pins: set<InstanceId>, gen: GenId) {
    gen in d.generations && Readable(d.generations[gen]) && Plan(d, now, map[], pins).Some?
  }

  /** The registry lists the new generation beside everything that is still retained; then the link names it. */
  function Switched(d: Disk, now: int, pins: set<InstanceId>, gen: GenId): Disk
    requires CanSwitch(d, now, pins, gen)
  {
    SwitchLeases(d, now, gen).(registry := Some(GcPaths(d, gen) + Plan(d, now, map[], pins).value.paths),
        link := Some(gen))
  }

  lemma SwitchLeasesOnly(d: Disk, now: int, gen: GenId)
    requires gen in d.generations && (d.link.Some? ==> d.link.value in d.generations)
    ensures MarkersOnly(d, SwitchLeases(d, now, gen))
  {}

  /** The marker of a generation after a switch: a grace period for both sides of it, the plan's for the others. */
  ghost predicate MarkedBySwitch(d: Disk, now: int, gen: GenId, g: GenId, marker: Option<int>)
    requires g in d.generations
  {
    if g == gen || d.link == Some(g) then marker == Some(now + 3600)
    else if d.link.Some? then MarkedSo(d, now, map[], g, marker) else marker == d.generations[g].marker
  }

  /** Whose manifests are listed after a switch: those of the new generation and of all that stay. */
  ghost predicate ListsAfterSwitch(d: Disk, now: int, gen: GenId, g: GenId)
    requires g in d.generations
  {
    g == gen || (d.link.Some? && Stays(d, now, map[], g))
  }

  ghost predicate SwitchedSo(d: Disk, now: int, pins: set<InstanceId>, gen: GenId, d': Disk) {
    && d'.link == Some(gen) && d'.launches == d.launches && d'.generations.Keys == d.generations.Keys
    && (forall g | g in d.generations ::
          && d'.generations[g] == d.generations[g].(marker := d'.generations[g].marker)
          && MarkedBySwitch(d, now, gen, g, d'.generations[g].marker))
    && (forall id :: Listed(d', Launch(id)) <==> id in pins)
    && (forall g, local :: Listed(d', InGeneration(g, local)) <==>
          g in d.generations && ListsAfterSwitch(d, now, gen, g) && local in RootList(d, g))
  }

  lemma SwitchMarks(d: Disk, now: int, pins: set<InstanceId>, gen: GenId, g: GenId)
    requires CanSwitch(d, now, pins, gen) && g in d.generations
    ensures var s := Switched(d, now, pins, gen);
            && g in s.generations && s.generations[g] == d.generations[g].(marker := s.generations[g].marker)
            && MarkedBySwitch(d, now, gen, g, s.generations[g].marker)
  {
    SwitchLeasesOnly(d, now, gen);
    if d.link.Some? && d.link != Some(g) { LeaseIsLatest(d, now, map[], g); }
  }

  lemma SwitchListsExactly(d: Disk, now: int, pins: set<InstanceId>, gen: GenId, g: GenId, local: Local)
    requires CanSwitch(d, now, pins, gen)
    ensures Listed(Switched(d, now, pins, gen), InGeneration(g, local)) <==>
              g in d.generations && ListsAfterSwitch(d, now, gen, g) && local in RootList(d, g)
  {
    if d.link.Some? { RetainedIff(d, now, map[], pins, g); }
    if g == gen && local in RootList(d, g) {
      var i :| 0 <= i < |RootList(d, g)| && RootList(d, g)[i] == local;
      assert InGeneration(gen, d.generations[gen].roots.value[i]) in GcPaths(d, gen);
    }
  }

  /** What a switch comes to, generation by generation and path by path. */
  lemma SwitchMeans(d: Disk, now: int, pins: set<InstanceId>, gen: GenId)
    requires CanSwitch(d, now, pins, gen)
    ensures SwitchedSo(d, now, pins, gen, Switched(d, now, pins, gen))
  {
    var s := Switched(d, now, pins, gen);
    forall g | g in d.generations
      ensures g in s.generations && s.generations[g] == d.generations[g].(marker := s.generations[g].marker)
      ensures MarkedBySwitch(d, now, gen, g, s.generations[g].marker)
    {
      SwitchMarks(d, now, pins, gen, g);
    }
    forall g, local
      ensures Listed(s, InGeneration(g, local)) <==>
                g in d.generations && ListsAfterSwitch(d, now, gen, g) && local in RootList(d, g)
    {
      SwitchListsExactly(d, now, pins, gen, g, local);
    }
    SwitchLeasesOnly(d, now, gen);
  }

  lemma NoDrainsLease(d: Disk, now: int, gen: GenId)
    requires gen in d.generations
    ensures Lease(d, now, map[], gen) == Started(d, now, gen)
  {
    if Readable(d.generations[gen]) { ExtendNothing(now, map[], d.generations[gen].roots.value, Started(d, now, gen)); }
  }

  /** The manifests that an activation lists belong to readable generations. */
  lemma SwitchLists(d: Disk, now: int, pins: set<InstanceId>, gen: GenId)
    requires CanSwitch(d, now, pins, gen)
    ensures var s := Switched(d, now, pins, gen);
            && s.registry.value != {} && AllExist(s, s.registry.value)
            && forall g | g in ListedGenerations(s) :: g in s.generations && Readable(s.generations[g])
  {
    var s := Switched(d, now, pins, gen);
    SwitchLeasesOnly(d, now, gen);
    assert InGeneration(gen, d.generations[gen].roots.value[0]) in GcPaths(d, gen);
    PlannedPathsExist(d, now, map[], pins);
    assert forall p :: Exists(s, p) == Exists(d, p);
    forall p | p in s.registry.value ensures Exists(s, p) {
      assert p in GcPaths(d, gen) || p in Plan(d, now, map[], pins).value.paths;
    }
  }

  lemma KeptAfterSwitch(d: Disk, now: int, pins: set<InstanceId>, gen: GenId, later: int, g: GenId)
    requires CanSwitch(d, now, pins, gen) && d.link.Some? && now <= later
    requires g in Kept(Switched(d, now, pins, gen), later, map[])
    ensures g in d.generations && Readable(d.generations[g])
  {
    var s := Switched(d, now, pins, gen);
    SwitchLeasesOnly(d, now, gen);
    NoDrainsLease(s, later, g);
    if g != gen && d.link != Some(g) {
      if g in ListedGenerations(s) {
        SwitchLists(d, now, pins, gen);
      } else {
        assert s.generations[g] == Marked(d, now, map[]).generations[g];
        assert g in Kept(d, now, map[]);
      }
    }
  }

  /** A switch can always be taken back: the plan for returning to the previous generation cannot fail. */
  lemma RollbackIsPossible(d: Disk, now: int, pins: set<InstanceId>, gen: GenId, later: int, pins': set<InstanceId>)
    requires CanSwitch(d, now, pins, gen) && d.link.Some? && now <= later && pins' <= d.launches
    ensures CanSwitch(Switched(d, now, pins, gen), later, pins', d.link.value)
  {
    var s := Switched(d, now, pins, gen);
    SwitchLeasesOnly(d, now, gen);
    ActiveIsKept(d, now, map[], pins);
    SwitchLists(d, now, pins, gen);
    forall g | g in Kept(s, later, map[]) ensures g in s.generations && Readable(s.generations[g]) {
      KeptAfterSwitch(d, now, pins, gen, later, g);
    }
  }

  /**
   For a grace period after a switch both of its sides are retained, whatever drains meanwhile, and so
   neither can be lost to GC.
   */
  lemma BothSidesAreKept(d: Disk, now: int, pins: set<InstanceId>, gen: GenId, later: int, drains: map<Tag, int>)
    requires CanSwitch(d, now, pins, gen) && d.link.Some? && later < now + GRACE
    ensures var s := Switched(d, now, pins, gen);
            && gen in Kept(s, later, drains) && d.link.value in Kept(s, later, drains)
            && RootedIn(s, gen) && RootedIn(s, d.link.value)
  {
    var s, previous := Switched(d, now, pins, gen), d.link.value;
    SwitchLeasesOnly(d, now, gen);
    ActiveIsKept(d, now, map[], pins);
    assert s.generations[previous].marker == Some(now + GRACE);
    if Readable(s.generations[previous]) {
      ExtendMeans(later, drains, s.generations[previous].roots.value, Started(s, later, previous));
    }
    assert GcPaths(s, gen) == GcPaths(d, gen) && GcPaths(s, previous) == GcPaths(d, previous);
  }

  /** Pinning launches that exist does not get in the way. */
  lemma PinnedCanSwitch(d: Disk, now: int, pins: set<InstanceId>, gen: GenId, ids: set<InstanceId>)
    requires CanSwitch(d, now, pins, gen) && ids <= d.launches && d.registry.Some?
    ensures CanSwitch(d.(registry := Some(d.registry.value + LaunchPaths(ids))), now, pins, gen)
  {
    var s := d.(registry := Some(d.registry.value + LaunchPaths(ids)));
    assert ListedGenerations(s) == ListedGenerations(d);
    assert Kept(s, now, map[]) == Kept(d, now, map[]);
    assert forall p :: Exists(s, p) == Exists(d, p);
  }
}
