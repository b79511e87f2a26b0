/**
 Retention, activation, pinning and maintenance as the code performs them, write by write. Every
 write is a step of `Generations`, so what is proved there of all runs holds at every crash point.
 */
module ChannelRoot {
  import opened Wrappers
  import opened Generations
  import opened Retention

  /** From one point of a run to another, nothing but leases was written. */
  ghost predicate MarkedSince(was: State, before: seq<Action>, s: State, log: seq<Action>) {
    && s == was.(disk := s.disk) && MarkersOnly(was.disk, s.disk)
    && before <= log && forall i | |before| <= i < |log| :: log[i].Mark?
  }

  lemma MarkedTwice(s0: State, log0: seq<Action>, s1: State, log1: seq<Action>, s2: State, log2: seq<Action>)
    requires MarkedSince(s0, log0, s1, log1) && MarkedSince(s1, log1, s2, log2)
    ensures MarkedSince(s0, log0, s2, log2)
  {}

  class ArtifactRoot {
    var state: State
    ghost const origin: State
    ghost var log: seq<Action>

    ghost predicate Valid()
      reads this
    {
      Guarded(origin) && IsRun(origin, log) && state == After(origin, log)
    }

    constructor (disk: Disk)
      ensures Valid() && state.disk == disk && log == []
    {
      state := State(disk, None, {}, None);
      origin := State(disk, None, {}, None);
      log := [];
    }

    /** One durable write. */
    method Do(a: Action)
      requires Valid() && Enabled(state, a)
      modifies this
      ensures Valid() && log == old(log) + [a]
      ensures state == Apply(old(state), a)
    {
      state := Apply(state, a);
      ghost var before := log;
      log := log + [a];
      assert log[..|log| - 1] == before;
    }

    /** Wherever the controller may have been interrupted, what was served then was listed. */
    lemma EveryPointIsRooted(k: nat)
      requires Valid() && k <= |log| && (Rooted(origin.disk) || Activated(log[..k]))
      ensures IsRun(origin, log[..k]) && Rooted(After(origin, log[..k]).disk)
    {
      RunPrefix(origin, log, k);
      ServedIsListed(origin, log[..k]);
    }

    /** Since then, nothing but leases was written. */
    ghost predicate OnlyMarked(was: State, before: seq<Action>)
      reads this
    {
      MarkedSince(was, before, state, log)
    }

    method Retire(gen: GenId, until: int)
      requires Valid() && gen in state.disk.generations
      modifies this
      ensures Valid() && OnlyMarked(old(state), old(log))
      ensures state.disk == Renewed(old(state.disk), gen, until)
    {
      Do(Mark(gen, until));
    }

    /** Prolongs a lease release by release. */
    method Prolong(gen: GenId, now: int, drains: map<Tag, int>, locals: seq<Local>)
      requires Valid() && gen in state.disk.generations
      modifies this
      ensures Valid() && OnlyMarked(old(state), old(log))
      ensures var g := old(state.disk).generations[gen];
              state.disk == Update(old(state.disk), gen, g.(marker := Extend(now, drains, locals, g.marker)))
    {
      ghost var was, before := state, log;
      ghost var g := state.disk.generations[gen];
      var until := state.disk.generations[gen].marker;
      for i := 0 to |locals|
        invariant Valid() && OnlyMarked(was, before) && state.disk == Update(was.disk, gen, g.(marker := until))
        invariant Extend(now, drains, locals[i..], until) == Extend(now, drains, locals, g.marker)
      {
        assert locals[i..][0] == locals[i] && locals[i..][1..] == locals[i + 1..];
        if Extends(now, drains, locals[i], until) {
          until := Some(drains[locals[i].tag]);
          Retire(gen, until.value);
        }
      }
      assert locals[|locals|..] == [];
    }

    /** One generation's turn in the loop; false where reading its roots raises. */
    method Renew(gen: GenId, now: int, drains: map<Tag, int>) returns (ok: bool)
      requires Valid() && gen in state.disk.generations
      modifies this
      ensures Valid() && OnlyMarked(old(state), old(log))
      ensures ok <==> (gen in ListedGenerations(old(state.disk)) && drains != map[] ==>
                Readable(old(state.disk).generations[gen]))
      ensures ok ==> state.disk == Update(old(state.disk), gen,
                old(state.disk).generations[gen].(marker := Lease(old(state.disk), now, drains, gen)))
    {
      var d := state.disk;
      var listed := gen in ListedGenerations(d);
      if d.generations[gen].marker.None? && listed {
        Retire(gen, now + GRACE);
      }
      if !listed { return true; }
      if drains == map[] {
        if Readable(d.generations[gen]) {
          ExtendNothing(now, drains, d.generations[gen].roots.value, Started(d, now, gen));
        }
        return true;
      }
      if !Readable(d.generations[gen]) { return false; }
      Prolong(gen, now, drains, d.generations[gen].roots.value);
      return true;
    }

    /** The generations in `done` have had their turn; those of them in `found` are kept. */
    ghost predicate Renewing(d: Disk, now: int, drains: map<Tag, int>, done: set<GenId>, found: set<GenId>)
      reads this
    {
      && state.disk == PartlyMarked(d, now, drains, done)
      && DoneReadable(d, drains, done) && found == KeptOf(d, now, drains, done)
    }

    /** The loop's body: the serving generation is kept as it is, any other gets its turn. */
    method Visit(gen: GenId, now: int, drains: map<Tag, int>, found: set<GenId>, ghost d: Disk, ghost done: set<GenId>,
                 ghost was: State, ghost before: seq<Action>)
      returns (r: Option<set<GenId>>)
      requires Valid() && gen in d.generations && gen !in done && Renewing(d, now, drains, done, found)
      requires OnlyMarked(was, before)
      modifies this
      ensures Valid() && OnlyMarked(was, before)
      ensures r.Some? <==> (d.link == Some(gen) || LeaseReadable(d, drains, gen))
      ensures r.Some? ==> Renewing(d, now, drains, done + {gen}, r.value)
    {
      OneMoreKept(d, now, drains, done, gen);
      if state.disk.link == Some(gen) {
        assert PartlyMarked(d, now, drains, done + {gen}).generations == PartlyMarked(d, now, drains, done).generations;
        return Some(found + {gen});
      }
      OneMoreMarked(d, now, drains, done, gen);
      ghost var mid, sofar := state, log;
      var ok := Renew(gen, now, drains);
      MarkedTwice(was, before, mid, sofar, state, log);
      if !ok { return None; }
      var keep := state.disk.generations[gen].marker.Some? && state.disk.generations[gen].marker.value > now;
      r := Some(if keep then found + {gen} else found);
    }

    /** The loop over the directory's entries, which come in any order. */
    method RenewEach(now: int, drains: map<Tag, int>) returns (kept: Option<set<GenId>>)
      requires Valid() && Renewing(state.disk, now, drains, {}, {})
      modifies this
      ensures Valid() && OnlyMarked(old(state), old(log))
      ensures kept.None? ==> !LeasesReadable(old(state.disk), drains)
      ensures kept.Some? ==> Renewing(old(state.disk), now, drains, old(state.disk).generations.Keys, kept.value)
    {
      ghost var d := state.disk;
      var names := state.disk.generations.Keys;
      var rest := names;
      kept := Some({});
      assert names - rest == {};
      while rest != {}
        invariant rest <= names && Valid() && OnlyMarked(old(state), old(log))
        invariant kept.Some? && Renewing(d, now, drains, names - rest, kept.value)
        decreases |rest|
      {
        var gen :| gen in rest;
        kept := Visit(gen, now, drains, kept.value, d, names - rest, old(state), old(log));
        if kept.None? { return; }
        assert names - (rest - {gen}) == names - rest + {gen};
        rest := rest - {gen};
      }
      assert names - rest == names;
    }

    /** Every generation's turn; none where reading the roots of one of them raises. */
    method RenewAll(now: int, drains: map<Tag, int>) returns (kept: Option<set<GenId>>)
      requires Valid()
      modifies this
      ensures Valid() && OnlyMarked(old(state), old(log))
      ensures kept.Some? <==> LeasesReadable(old(state.disk), drains)
      ensures kept.Some? ==>
                kept.value == Kept(old(state.disk), now, drains) && state.disk == Marked(old(state.disk), now, drains)
    {
      AllMarked(state.disk, now, drains);
      kept := RenewEach(now, drains);
    }

    /** `generation_retention`. */
    method Retain(now: int, drains: map<Tag, int>, pins: set<InstanceId>) returns (r: Option<Retained>)
      requires Valid()
      modifies this
      ensures Valid() && OnlyMarked(old(state), old(log))
      ensures r == Plan(old(state.disk), now, drains, pins)
      ensures r.Some? ==>
                state.disk == if state.disk.link.Some? then Marked(old(state.disk), now, drains) else old(state.disk)
      ensures r.Some? && state.disk.link.Some? ==>
                forall gen | gen in state.disk.generations ::
                  && gen in old(state.disk).generations
                  && (gen in r.value.retained <==> Stays(old(state.disk), now, drains, gen))
                  && (gen in r.value.expired <==> !Stays(old(state.disk), now, drains, gen))
                  && (state.disk.link != Some(gen) ==>
                        MarkedSo(old(state.disk), now, drains, gen, state.disk.generations[gen].marker))
    {
      var d := state.disk;
      if !(pins <= d.launches) { return None; }
      if d.link.None? { return Some(Retained({}, {}, LaunchPaths(pins), {})); }
      if !Checked(d) { return None; }
      var kept := RenewAll(now, drains);
      if kept.None? || !AllReadable(state.disk, kept.value) { return None; }
      var paths := LaunchPaths(pins) + PathsOf(state.disk, kept.value);
      PathsIgnoreMarkers(d, state.disk, kept.value);
      r := Some(Retained(kept.value, state.disk.generations.Keys - kept.value, paths, TagsIn(paths)));
      RetainedByState(d, now, drains, pins);
    }

    /** `pin_live_feed_gc_roots`. */
    method PinLaunches(ids: set<InstanceId>)
      requires Valid()
      modifies this
      ensures Valid() && old(log) <= log
      ensures state.disk == if ids == {} then old(state.disk)
                            else old(state.disk).(registry := Some(Registry(old(state.disk)) + LaunchPaths(ids)))
    {
      if ids != {} { Do(Pin(ids)); }
    }

    /** `release_instance_gc_roots`. */
    method ReleaseLaunches(ids: set<InstanceId>)
      requires Valid()
      modifies this
      ensures Valid() && old(log) <= log
      ensures state.disk == old(state.disk).(registry := Some(Registry(old(state.disk)) - LaunchPaths(ids)))
    {
      Do(Unpin(ids));
    }

    /** The first half of an activation: plan, and lease both sides of the switch. */
    method PlanSwitch(gen: GenId, now: int, pins: set<InstanceId>) returns (r: Option<Retained>)
      requires Valid() && gen in state.disk.generations
      modifies this
      ensures Valid() && OnlyMarked(old(state), old(log)) && r == Plan(old(state.disk), now, map[], pins)
      ensures r.Some? ==> old(state.disk.link.Some? ==> state.disk.link.value in state.disk.generations)
                          && state.disk == SwitchLeases(old(state.disk), now, gen)
    {
      r := Retain(now, map[], pins);
      if r.None? { return; }
      if state.disk.link.Some? && state.disk.link.value != gen { Retire(state.disk.link.value, now + GRACE); }
      Retire(gen, now + GRACE);
    }

    /** `activate_channel_generation`: leases first, then the registry, then the link. */
    method ActivateGeneration(gen: GenId, now: int, pins: set<InstanceId>) returns (ok: bool)
      requires Valid()
      modifies this
      ensures Valid() && old(log) <= log
      ensures ok <==> CanSwitch(old(state.disk), now, pins, gen)
      ensures if ok then state.disk == Switched(old(state.disk), now, pins, gen)
                else MarkersOnly(old(state.disk), state.disk)
      ensures ok ==> SwitchedSo(old(state.disk), now, pins, gen, state.disk)
    {
      var d := state.disk;
      if gen !in d.generations || !Readable(d.generations[gen]) { return false; }
      var roots := GcPaths(d, gen);
      var r := PlanSwitch(gen, now, pins);
      if r.None? { return false; }
      SwitchIsRooted(d, now, pins, gen);
      SwitchMeans(d, now, pins, gen);
      Do(Root(gen, roots + r.value.paths));
      Do(Switch(gen));
      return true;
    }

    /**
     The switch in `activate` with its rollback; `healthy` is what the reload and the public checks
     report. A failed switch leaves the link where it was, if there was one.
     */
    method SwitchChannels(gen: GenId, now: int, later: int, pins: set<InstanceId>, healthy: bool) returns (ok: bool)
      requires Valid() && now <= later
      modifies this
      ensures Valid() && old(log) <= log
      ensures ok <==> healthy && CanSwitch(old(state.disk), now, pins, gen)
      ensures ok ==> state.disk.link == Some(gen)
      ensures !ok && old(state.disk.link.Some?) ==> state.disk.link == old(state.disk.link)
    {
      var previous := state.disk.link;
      ghost var d := state.disk;
      ok := ActivateGeneration(gen, now, pins);
      if ok {
        SwitchKeepsNames(d, now, pins, gen);
        PinLaunches(pins);
        if healthy { return true; }
        if previous.Some? {
          RollbackIsPossible(d, now, pins, gen, later, pins);
          PinnedCanSwitch(Switched(d, now, pins, gen), later, pins, previous.value, pins);
          assert state.disk.registry.value == Switched(d, now, pins, gen).registry.value + LaunchPaths(pins);
        }
      }
      if previous.Some? {
        var back := ActivateGeneration(previous.value, later, pins);
        if back { PinLaunches(pins); }
      }
      return false;
    }

    /** Removes a generation that may be deleted. */
    method Delete(gen: GenId)
      requires Valid() && gen in state.disk.generations && (gen in state.condemned || state.clearing == Some(gen))
      modifies this
      ensures Valid() && old(log) <= log
      ensures state == old(state).(disk := old(state.disk).(generations := old(state.disk).generations - {gen}))
    {
      Do(Shrink(gen, {}, None, None));
      Do(Remove(gen));
      assert state.disk.generations == old(state.disk).generations - {gen};
    }

    /** The registry part of `maintain_retirement`: roots are given up first, files deleted afterwards. */
    method Maintain(now: int, drains: map<Tag, int>, pins: set<InstanceId>) returns (ok: bool)
      requires Valid()
      modifies this
      ensures Valid() && old(log) <= log
      ensures state.disk.link == old(state.disk.link)
      ensures ok <==> state.disk.link.None? || Plan(old(state.disk), now, drains, pins).Some?
      ensures ok && state.disk.link.Some? ==>
                var plan := Plan(old(state.disk), now, drains, pins).value;
                state.disk.registry == Some(plan.paths) && state.disk.generations.Keys == plan.retained
      ensures ok && state.disk.link.Some? ==>
                && state.disk.generations.Keys <= old(state.disk).generations.Keys
                && forall gen | gen in old(state.disk).generations ::
                     if Stays(old(state.disk), now, drains, gen) then gen in state.disk.generations
                     else gen !in state.disk.generations && !AnyListed(state.disk, gen)
    {
      if state.disk.link.None? { return true; }
      var r := Retain(now, drains, pins);
      if r.None? { return false; }
      PlanDivides(old(state.disk), now, drains, pins);
      RetainedByState(old(state.disk), now, drains, pins);
      if r.value.expired == {} && state.disk.registry == Some(r.value.paths) { return true; }
      TrimIsRooted(old(state.disk), now, drains, pins);
      Do(Trim(r.value.paths, r.value.expired));
      DeleteAll(r.value.expired);
      return true;
    }

    method DeleteAll(expired: set<GenId>)
      requires Valid() && expired <= state.condemned && expired <= state.disk.generations.Keys
      modifies this
      ensures Valid() && old(log) <= log
      ensures state == old(state).(disk := old(state.disk).(generations := old(state.disk).generations - expired))
    {
      ghost var was := state;
      var rest := expired;
      assert was.disk.generations - (expired - rest) == was.disk.generations;
      while rest != {}
        invariant rest <= expired && Valid() && old(log) <= log
        invariant state == was.(disk := was.disk.(generations := was.disk.generations - (expired - rest)))
        decreases |rest|
      {
        var gen :| gen in rest;
        Delete(gen);
        assert was.disk.generations - (expired - (rest - {gen})) == was.disk.generations - (expired - rest) - {gen};
        rest := rest - {gen};
      }
      assert expired - rest == expired;
    }

    /** An empty directory, whatever was there before. */
    method Empty(gen: GenId)
      requires Valid() && (gen in state.disk.generations ==> state.disk.link != Some(gen))
      modifies this
      ensures Valid() && old(log) <= log
      ensures state.disk == Update(old(state.disk), gen, Generation({}, None, None))
    {
      ghost var m := state.disk.generations;
      if gen in state.disk.generations {
        Do(BeginClear(gen));
        Delete(gen);
      }
      assert state.disk == old(state.disk).(generations := m - {gen}) by { assert gen !in m ==> m - {gen} == m; }
      Do(Make(gen));
      assert (m - {gen})[gen := Generation({}, None, None)] == m[gen := Generation({}, None, None)];
    }

    /** Building a generation in `activate`: an earlier attempt under the same number is deleted first. */
    method Rebuild(gen: GenId, locals: seq<Local>) returns (ok: bool)
      requires Valid()
      modifies this
      ensures Valid() && old(log) <= log
      ensures ok <==> !(gen in old(state.disk.generations) && old(state.disk.link) == Some(gen))
      ensures state.disk
                == if ok then Update(old(state.disk), gen, Generation(Elements(locals, |locals|), Some(locals), None))
                            else old(state.disk)
    {
      if gen in state.disk.generations && state.disk.link == Some(gen) { return false; }
      ghost var m, built := state.disk.generations, Generation(Elements(locals, |locals|), Some(locals), None);
      Empty(gen);
      WriteAll(gen, locals);
      assert m[gen := Generation({}, None, None)][gen := built] == m[gen := built];
      return true;
    }

    /** The manifests one by one, then the list of them. */
    method WriteAll(gen: GenId, locals: seq<Local>)
      requires Valid() && gen in state.disk.generations && state.disk.generations[gen] == Generation({}, None, None)
      modifies this
      ensures Valid() && old(log) <= log
      ensures state.disk == Update(old(state.disk), gen, Generation(Elements(locals, |locals|), Some(locals), None))
    {
      ghost var d := state.disk;
      assert Elements(locals, 0) == {};
      for i := 0 to |locals|
        invariant Valid() && old(log) <= log
        invariant state.disk == Update(d, gen, Generation(Elements(locals, i), None, None))
      {
        Do(Write(gen, locals[i]));
        assert Elements(locals, i) + {locals[i]} == Elements(locals, i + 1);
      }
      Do(List(gen, locals));
    }
  }

  function Elements(locals: seq<Local>, k: nat): set<Local>
    requires k <= |locals|
  {
    set i | 0 <= i < k :: locals[i]
  }

  /** What `Root` asks of the new registry. */
  lemma SwitchIsRooted(d: Disk, now: int, pins: set<InstanceId>, gen: GenId)
    requires CanSwitch(d, now, pins, gen)
    ensures var m, paths := SwitchLeases(d, now, gen), GcPaths(d, gen) + Plan(d, now, map[], pins).value.paths;
            && gen in m.generations && Readable(m.generations[gen]) && GcPaths(m, gen) <= paths
            && KeepsLink(m, paths) && AllExist(m, paths)
  {
    var m, paths := SwitchLeases(d, now, gen), GcPaths(d, gen) + Plan(d, now, map[], pins).value.paths;
    SwitchLeasesOnly(d, now, gen);
    assert GcPaths(m, gen) == GcPaths(d, gen);
    if d.link.Some? {
      ActiveIsKept(d, now, map[], pins);
      assert GcPaths(m, d.link.value) == GcPaths(d, d.link.value);
    }
    SwitchLists(d, now, pins, gen);
    var s := Switched(d, now, pins, gen);
    forall p | p in paths ensures Exists(m, p) { assert p in s.registry.value && Exists(s, p); }
  }

  lemma SwitchKeepsNames(d: Disk, now: int, pins: set<InstanceId>, gen: GenId)
    requires CanSwitch(d, now, pins, gen)
    ensures var s := Switched(d, now, pins, gen);
            s.generations.Keys == d.generations.Keys && s.launches == d.launches && s.registry.Some?
            && pins <= s.launches
  {
    SwitchLeasesOnly(d, now, gen);
  }

  lemma PlanDivides(d: Disk, now: int, drains: map<Tag, int>, pins: set<InstanceId>)
    requires Plan(d, now, drains, pins).Some? && d.link.Some?
    ensures var plan := Plan(d, now, drains, pins).value;
            plan.expired <= d.generations.Keys && d.generations.Keys - plan.expired == plan.retained
  {}

  /** What `Trim` asks of the new registry. */
  lemma TrimIsRooted(d: Disk, now: int, drains: map<Tag, int>, pins: set<InstanceId>)
    requires Plan(d, now, drains, pins).Some? && d.link.Some?
    ensures var m, plan := Marked(d, now, drains), Plan(d, now, drains, pins).value;
            && KeepsLink(m, plan.paths) && AllExist(m, plan.paths)
            && (forall gen | gen in plan.expired :: m.link != Some(gen))
            && (forall p | p in plan.paths && p.InGeneration? :: p.gen !in plan.expired)
  {
    var m, plan := Marked(d, now, drains), Plan(d, now, drains, pins).value;
    ActiveIsKept(d, now, drains, pins);
    assert GcPaths(m, d.link.value) == GcPaths(d, d.link.value);
    PlannedPathsExist(d, now, drains, pins);
    forall p | p in plan.paths ensures Exists(m, p) { assert Exists(d, p); }
  }

  // ----- An interrupted or smaller rebuild wedges the controller -----

  /** The disk after a switch to `gen` that was taken back. */
  function TakenBack(d: Disk, now: int, gen: GenId, later: int, pins: set<InstanceId>): Disk
    requires CanSwitch(d, now, pins, gen) && d.link.Some? && now <= later
  {
    RollbackIsPossible(d, now, pins, gen, later, pins);
    Switched(Switched(d, now, pins, gen), later, pins, d.link.value)
  }

  lemma TakenBackLists(d: Disk, now: int, gen: GenId, later: int, pins: set<InstanceId>, local: Local)
    requires CanSwitch(d, now, pins, gen) && d.link.Some? && d.link.value != gen && now <= later
    ensures Listed(TakenBack(d, now, gen, later, pins), InGeneration(gen, local)) <==>
              local in d.generations[gen].roots.value
  {
    RollbackIsPossible(d, now, pins, gen, later, pins);
    var s := Switched(d, now, pins, gen);
    SwitchLeasesOnly(d, now, gen);
    var plan, p := Plan(s, later, map[], pins).value, InGeneration(gen, local);
    assert gen in Kept(s, later, map[]) && RootList(s, gen) == d.generations[gen].roots.value;
    assert p in PathsOf(s, Kept(s, later, map[])) <==> local in d.generations[gen].roots.value;
    assert p !in GcPaths(s, d.link.value) && p !in LaunchPaths(pins);
  }

  /** A switch that is taken back leaves nothing missing, and the failed generation still listed. */
  lemma TakenBackIsFine(d: Disk, now: int, gen: GenId, later: int, pins: set<InstanceId>)
    requires CanSwitch(d, now, pins, gen) && d.link.Some? && d.link.value != gen && now <= later
    ensures var t := TakenBack(d, now, gen, later, pins);
            t.link == d.link && t.generations.Keys == d.generations.Keys && Closed(t) && Rooted(t) && RootedIn(t, gen)
  {
    RollbackIsPossible(d, now, pins, gen, later, pins);
    var s, t := Switched(d, now, pins, gen), TakenBack(d, now, gen, later, pins);
    SwitchLeasesOnly(d, now, gen);
    SwitchLeasesOnly(s, later, d.link.value);
    SwitchLists(s, later, pins, d.link.value);
    assert GcPaths(t, d.link.value) == GcPaths(s, d.link.value);
    forall p | p in GcPaths(t, gen) ensures p in t.registry.value {
      TakenBackLists(d, now, gen, later, pins, p.local);
    }
  }

  /**
   Building the failed generation again repairs the registry exactly if every manifest of the first
   attempt is written again. Otherwise no retention can be planned from then on.
   */
  lemma RebuildWedgesIff(d: Disk, now: int, gen: GenId, later: int, pins: set<InstanceId>, g: Generation)
    requires CanSwitch(d, now, pins, gen) && d.link.Some? && d.link.value != gen && now <= later
    ensures var d' := Update(TakenBack(d, now, gen, later, pins), gen, g);
            && (Closed(d') <==> forall local | local in d.generations[gen].roots.value :: local in g.files)
            && (!Closed(d') ==> forall now', drains, pins' :: Plan(d', now', drains, pins').None?)
  {
    var t := TakenBack(d, now, gen, later, pins);
    TakenBackIsFine(d, now, gen, later, pins);
    forall local ensures Listed(t, InGeneration(gen, local)) <==> local in d.generations[gen].roots.value {
      TakenBackLists(d, now, gen, later, pins, local);
    }
    RebuiltIsClosedIff(t, gen, g);
    var d' := Update(t, gen, g);
    if !Closed(d') {
      var local :| local in d.generations[gen].roots.value && local !in g.files;
      assert Listed(t, InGeneration(gen, local));
      forall now', drains, pins' ensures Plan(d', now', drains, pins').None? {
        WedgedHasNoPlan(d', now', drains, pins', InGeneration(gen, local));
      }
    }
  }

  /** Generation 1 serves; generation 2, with a staging channel, has just been built. */
  function Fresh(): Disk {
    Disk(map["1" := Generation({Channel("production")}, Some([Channel("production")]), None),
             "2" := Generation({Channel("production"), Channel("staging")},
                               Some([Channel("production"), Channel("staging")]), None)],
         Some("1"), Some({InGeneration("1", Channel("production"))}), {})
  }

  /** Generation 2 is built again, now without staging. */
  function BuildAgain(): seq<Action> {
    [BeginClear("2"), Remove("2"), Make("2"), Write("2", Channel("production")), List("2", [Channel("production")])]
  }

  lemma RunOneMore(s: State, run: seq<Action>, a: Action)
    requires IsRun(s, run) && Enabled(After(s, run), a)
    ensures IsRun(s, run + [a]) && After(s, run + [a]) == Apply(After(s, run), a)
  {
    assert (run + [a])[..|run|] == run;
  }

  lemma Cleared(s: State)
    requires "2" in s.disk.generations && s.disk.link != Some("2")
    ensures var run := [BeginClear("2"), Remove("2")];
            IsRun(s, run) && After(s, run).disk == s.disk.(generations := s.disk.generations - {"2"})
  {
    RunOneMore(s, [], BeginClear("2"));
    assert [] + [BeginClear("2")] == [BeginClear("2")];
    RunOneMore(s, [BeginClear("2")], Remove("2"));
    assert [BeginClear("2")] + [Remove("2")] == [BeginClear("2"), Remove("2")];
  }

  lemma Remade(s: State, run: seq<Action>, local: Local)
    requires IsRun(s, run) && "2" !in After(s, run).disk.generations
    ensures var more := run + [Make("2"), Write("2", local), List("2", [local])];
            IsRun(s, more)
            && After(s, more).disk == Update(After(s, run).disk, "2", Generation({local}, Some([local]), None))
  {
    var a, b, c := Make("2"), Write("2", local), List("2", [local]);
    var d, empty := After(s, run).disk, Generation({}, None, None);
    RunOneMore(s, run, a);
    RunOneMore(s, run + [a], b);
    assert empty.files + {local} == {local};
    assert After(s, run + [a] + [b]).disk == Update(d, "2", empty.(files := {local})) by {
      assert d.generations["2" := empty]["2" := empty.(files := {local})]
               == d.generations["2" := empty.(files := {local})];
    }
    RunOneMore(s, run + [a] + [b], c);
    assert run + [a, b, c] == run + [a] + [b] + [c];
    var g := Generation({local}, Some([local]), None);
    assert d.generations["2" := empty.(files := {local})]["2" := g] == d.generations["2" := g];
  }

  lemma BuiltAgain(s: State)
    requires "2" in s.disk.generations && s.disk.link != Some("2")
    ensures IsRun(s, BuildAgain())
    ensures var g := Generation({Channel("production")}, Some([Channel("production")]), None);
            After(s, BuildAgain()).disk == Update(s.disk, "2", g)
  {
    Cleared(s);
    var local := Channel("production");
    Remade(s, [BeginClear("2"), Remove("2")], local);
    assert BuildAgain() == [BeginClear("2"), Remove("2")] + [Make("2"), Write("2", local), List("2", [local])];
    var m, g := s.disk.generations, Generation({Channel("production")}, Some([Channel("production")]), None);
    assert (m - {"2"})["2" := g] == m["2" := g];
  }

  lemma FreshCanSwitch()
    ensures CanSwitch(Fresh(), 0, {}, "2")
  {
    assert Plan(Fresh(), 0, map[], {}).Some?;
  }

  /** The staging manifest stays listed although it is gone, and no retention can be planned from then on. */
  lemma RebuildWedges(now: int, drains: map<Tag, int>, pins: set<InstanceId>)
    ensures CanSwitch(Fresh(), 0, {}, "2")
    ensures var s := State(TakenBack(Fresh(), 0, "2", 60, {}), None, {}, None);
            && IsRun(s, BuildAgain())
            && Wedged(After(s, BuildAgain()).disk, InGeneration("2", Channel("staging")))
            && Plan(After(s, BuildAgain()).disk, now, drains, pins).None?
  {
    FreshCanSwitch();
    var d := Fresh();
    var s := State(TakenBack(d, 0, "2", 60, {}), None, {}, None);
    TakenBackIsFine(d, 0, "2", 60, {});
    BuiltAgain(s);
    assert d.generations["2"].roots.value[1] == Channel("staging");
    TakenBackLists(d, 0, "2", 60, {}, Channel("staging"));
    WedgedHasNoPlan(After(s, BuildAgain()).disk, now, drains, pins, InGeneration("2", Channel("staging")));
  }
}
