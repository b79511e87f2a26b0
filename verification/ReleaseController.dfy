/**
 The controller object of tools/reconcile_prod_releases.py: the bounded loop, and the activation's
 record keeping as a sequence of updates in place.
 */
module ReleaseController {
  import opened Wrappers
  import opened Releases
  import opened Reconcile
  import opened Convergence
  import opened ActionCount
  import opened ControlLoop

  // ----- What each part of an activation does to one record -----

  function Bypass(r: Release, bypassed: bool): Release { if bypassed then r.(qualification := Bypassed) else r }

  function Rebound(r: Release, bindings: map<Tag, Binding>, tag: Tag): Release {
    if tag in bindings then r.(provider := bindings[tag].provider, reason := Some(bindings[tag].reason)) else r
  }

  function Invalidated(r: Release, bindings: map<Tag, Binding>, tag: Tag): Release {
    if tag in bindings then r.(deployment := Pending) else r
  }

  function DrainedRelease(r: Release, bindings: map<Tag, Binding>, tag: Tag, deadline: int): Release {
    if tag !in bindings && r.feed.Running? && r.draining.None? then r.(draining := Some(deadline)) else r
  }

  function DrainedInstance(i: Instance, serving: bool, deadline: int): Instance {
    if serving then i.(draining := None)
    else if (i.status.Running? || i.status.Unavailable?) && i.draining.None? then i.(draining := Some(deadline))
    else i
  }

  /** Retirement's turn: unused daemons are stopped at once, and removed if nothing keeps them. */
  function RetiredInstance(i: Instance, serving: bool, removable: bool, deadline: int): Instance {
    if serving then i.(draining := None)
    else if i.status.Removed? then i
    else i.(status := if removable then Removed else Stopped, evidence := None,
            draining := if i.draining.Some? then i.draining else Some(deadline))
  }

  /** A record per tag, rewritten for those that have had their turn. */
  ghost predicate Rewritten(m: map<Tag, Release>, m': map<Tag, Release>, f: (Tag, Release) -> Release, done: set<Tag>) {
    && m'.Keys == m.Keys
    && forall tag | tag in m :: m'[tag] == if tag in done then f(tag, m[tag]) else m[tag]
  }

  ghost predicate Redone(m: map<InstanceId, Instance>, m': map<InstanceId, Instance>,
                         f: (InstanceId, Instance) -> Instance,
                         done: set<InstanceId>) {
    && m'.Keys == m.Keys
    && forall id | id in m :: m'[id] == if id in done then f(id, m[id]) else m[id]
  }

  /** A release that has a daemon although its publication describes none: a refresh raises once it is built. */
  predicate Stray(host: Host, o: Observed, tag: Tag) {
    tag in o.releases && o.releases[tag].instance.Some? && host.requirements(tag).None?
  }

  ghost predicate BuiltStray(host: Host, d: Desired, o: Observed) {
    exists tag | tag in Tags(d) :: Built(o, tag) && Stray(host, o, tag)
  }

  ghost predicate NoStray(host: Host, d: Desired, o: Observed) { forall tag | tag in Tags(d) :: !Stray(host, o, tag) }

  /** As `OwnInstance`, except that strays are allowed. */
  ghost predicate OwnRecord(host: Host, o: Observed, tag: Tag)
    requires tag in o.releases
  {
    var r := o.releases[tag];
    && (r.endpoint.Some? ==> r.endpoint.value != "")
    && (r.instance.Some? ==>
          && r.instance.value in o.instances && o.instances[r.instance.value].tag == tag
          && o.instances[r.instance.value].endpoint != "")
    && (host.instance(tag) in o.instances ==>
          o.instances[host.instance(tag)].tag == tag && o.instances[host.instance(tag)].endpoint != "")
  }

  ghost predicate Recorded(host: Host, d: Desired, o: Observed) {
    RootedBuilds(o) && forall tag | tag in Tags(d) :: tag in o.releases && OwnRecord(host, o, tag)
  }

  lemma RecordedIsConsistent(host: Host, d: Desired, o: Observed)
    requires Recorded(host, d, o) && NoStray(host, d, o)
    ensures Consistent(host, d, o)
  {
    forall tag | tag in Tags(d)
      ensures tag in o.releases && OwnInstance(host, o, tag)
    {
      assert OwnRecord(host, o, tag) && !Stray(host, o, tag);
    }
  }

  // ----- What each part of a refresh does -----

  /** One release described again. */
  function PrepareRecord(host: Host, r: Release, tag: Tag): Release {
    r.(requirements := host.requirements(tag),
       instance := if host.requirements(tag).Some? then Some(host.instance(tag)) else r.instance)
  }

  /** Its daemon's record, made anew if it is missing or was removed. */
  function PrepareDaemon(host: Host, instances: map<InstanceId, Instance>, tag: Tag): map<InstanceId, Instance> {
    var id := host.instance(tag);
    if host.requirements(tag).Some? && (id !in instances || instances[id].status.Removed?)
    then instances[id := host.launch(id)] else instances
  }

  ghost function PreparedIn(host: Host, d: Desired, o: Observed, done: set<Tag>): set<InstanceId> {
    set tag | tag in done && Describes(host, d, o, tag) :: host.instance(tag)
  }

  /** The daemon record once the releases in `done` are prepared. */
  ghost function Launched(host: Host, d: Desired, o: Observed, done: set<Tag>, id: InstanceId): Instance {
    if id in o.instances && !(id in PreparedIn(host, d, o, done) && o.instances[id].status.Removed?)
    then o.instances[id] else host.launch(id)
  }

  ghost predicate PreparingReleases(host: Host, d: Desired, o: Observed, m: map<Tag, Release>, done: set<Tag>) {
    && m.Keys == o.releases.Keys
    && forall tag | tag in o.releases ::
         m[tag] == if tag in done then RefreshRelease(host, d, o, tag) else o.releases[tag]
  }

  ghost predicate PreparingInstances(host: Host, d: Desired, o: Observed, m: map<InstanceId, Instance>,
                                     done: set<Tag>) {
    && m.Keys == o.instances.Keys + PreparedIn(host, d, o, done)
    && forall id | id in m :: m[id] == Launched(host, d, o, done, id)
  }

  /** The releases in `done` have been prepared and nothing else has changed. */
  ghost predicate Preparing(host: Host, d: Desired, o: Observed, o': Observed, done: set<Tag>) {
    && o' == o.(releases := o'.releases, instances := o'.instances)
    && PreparingReleases(host, d, o, o'.releases, done)
    && PreparingInstances(host, d, o, o'.instances, done)
  }

  lemma PreparingSees(host: Host, d: Desired, o: Observed, o': Observed, done: set<Tag>, tag: Tag)
    requires Preparing(host, d, o, o', done) && tag !in done
    ensures Built(o', tag) == Built(o, tag) && Stray(host, o', tag) == Stray(host, o, tag)
  {}

  lemma PreparedNext(host: Host, d: Desired, o: Observed, done: set<Tag>, tag: Tag)
    ensures PreparedIn(host, d, o, done + {tag})
         == PreparedIn(host, d, o, done) + if Describes(host, d, o, tag) then {host.instance(tag)} else {}
  {}

  lemma PreparingRecords(host: Host, d: Desired, o: Observed, m: map<Tag, Release>, done: set<Tag>, tag: Tag)
    requires PreparingReleases(host, d, o, m, done) && tag in Tags(d) && tag !in done && Built(o, tag)
    requires !Stray(host, o, tag)
    ensures PreparingReleases(host, d, o, m[tag := PrepareRecord(host, m[tag], tag)], done + {tag})
  {}

  lemma PreparingDaemons(host: Host, d: Desired, o: Observed, m: map<InstanceId, Instance>, done: set<Tag>, tag: Tag)
    requires PreparingInstances(host, d, o, m, done) && tag in Tags(d) && Built(o, tag)
    ensures PreparingInstances(host, d, o, PrepareDaemon(host, m, tag), done + {tag})
  {
    PreparedNext(host, d, o, done, tag);
    var m' := PrepareDaemon(host, m, tag);
    forall id | id in m' ensures m'[id] == Launched(host, d, o, done + {tag}, id) {
      if id in m { assert m[id] == Launched(host, d, o, done, id); }
    }
  }

  lemma PreparingUnbuilt(host: Host, d: Desired, o: Observed, o': Observed, done: set<Tag>, tag: Tag)
    requires Preparing(host, d, o, o', done) && !Built(o, tag)
    ensures Preparing(host, d, o, o', done + {tag})
  {
    PreparedNext(host, d, o, done, tag);
    assert PreparedIn(host, d, o, done + {tag}) == PreparedIn(host, d, o, done);
    forall id | id in o'.instances ensures o'.instances[id] == Launched(host, d, o, done + {tag}, id) {
      assert o'.instances[id] == Launched(host, d, o, done, id);
    }
  }

  lemma PreparedIsRefreshed(host: Host, d: Desired, o: Observed, o2: Observed, o3: Observed)
    requires Preparing(host, d, o, o2, Tags(d))
    requires o3 == o2.(instances := o3.instances)
    requires Redone(o2.instances, o3.instances, (id, i) => Observe(host, id, i), o2.instances.Keys)
    ensures o3 == Refresh(host, d, o)
  {
    assert PreparedIn(host, d, o, Tags(d)) == Prepared(host, d, o);
    assert o3.releases == Refresh(host, d, o).releases;
    assert o3.instances == Refresh(host, d, o).instances;
  }

  // ----- Strays -----

  /**
   Whether a release is a stray never changes: a daemon stays recorded, and no refresh gives it to an
   undescribed one.
   */
  lemma NormalizeKeepsStrays(host: Host, d: Desired, o: Observed, tag: Tag)
    ensures Stray(host, Normalize(host, d, o), tag) == Stray(host, o, tag)
  {
    var o1 := Adopt(host, d, o);
    assert Stray(host, o1, tag) == Stray(host, o, tag);
    if tag in o1.releases { assert Refresh(host, d, o1).releases[tag] == RefreshRelease(host, d, o1, tag); }
  }

  lemma ActKeepsStrays(host: Host, compare: Comparison, d: Desired, n: Observed, force: Option<Tag>, a: Action,
                       tag: Tag)
    requires a.Activate? || a.tag in n.releases
    ensures Stray(host, Act(host, compare, d, n, force, a), tag) == Stray(host, n, tag)
    ensures Act(host, compare, d, n, force, a).releases.Keys == n.releases.Keys
  {
    if a.Activate? && tag in n.releases { ActivateRecord(host, compare, d, n, force, tag); }
  }

  lemma NormalizeKeys(host: Host, d: Desired, o: Observed, tag: Tag)
    ensures Normalize(host, d, o).releases.Keys == o.releases.Keys
    ensures Built(Normalize(host, d, o), tag) == Built(o, tag)
  {
    AdoptKeepsReady(host, d, o, tag);
    RefreshKeepsBuilds(host, d, Adopt(host, d, o), tag);
  }

  lemma RefreshKeepsBuilds(host: Host, d: Desired, o: Observed, tag: Tag)
    ensures Built(Refresh(host, d, o), tag) == Built(o, tag)
  {
    if tag in o.releases { assert Refresh(host, d, o).releases[tag].build == RefreshRelease(host, d, o, tag).build; }
  }

  ghost predicate SameStrays(host: Host, d: Desired, o0: Observed, o: Observed) {
    forall tag | tag in Tags(d) :: Stray(host, o, tag) == Stray(host, o0, tag)
  }

  lemma StraysObserved(host: Host, d: Desired, o0: Observed, o: Observed)
    requires SameStrays(host, d, o0, o)
    ensures SameStrays(host, d, o0, Normalize(host, d, o)) && Normalize(host, d, o).releases.Keys == o.releases.Keys
  {
    NormalizeKeys(host, d, o, d.production);
    forall tag | tag in Tags(d) ensures Stray(host, Normalize(host, d, o), tag) == Stray(host, o0, tag) {
      NormalizeKeepsStrays(host, d, o, tag);
    }
  }

  lemma StraysActed(host: Host, compare: Comparison, d: Desired, o0: Observed, n: Observed, force: Option<Tag>,
                    a: Action)
    requires SameStrays(host, d, o0, n) && (a.Activate? || a.tag in n.releases)
    ensures var n' := Act(host, compare, d, n, force, a);
            SameStrays(host, d, o0, n') && n'.releases.Keys == n.releases.Keys
  {
    ActKeepsStrays(host, compare, d, n, force, a, d.production);
    forall tag | tag in Tags(d) ensures Stray(host, Act(host, compare, d, n, force, a), tag) == Stray(host, o0, tag) {
      ActKeepsStrays(host, compare, d, n, force, a, tag);
    }
  }

  /** The planner acts on desired releases only. */
  lemma PlannedTag(compare: Comparison, d: Desired, n: Observed, force: Option<Tag>, a: Action)
    requires MakePlan(compare, d, n, force).action == Some(a)
    ensures a.Activate? || a.tag in Tags(d)
  {
    if !WorkDone(compare, d, n) {
      FirstWorkTag(compare, d, n, ProductionTags(d));
    } else if FirstUnchecked(n, ProductionTags(d)).Some? {
      FirstUncheckedTag(n, ProductionTags(d));
      if a.CheckDeployment? && a.tag in ProductionTags(d) { ProductionTagIn(d, a.tag); }
    }
  }

  lemma {:induction false} FirstWorkTag(compare: Comparison, d: Desired, n: Observed, tags: seq<Tag>)
    requires FirstWork(compare, d, n, tags).Some? && forall tag | tag in tags :: tag in Tags(d)
    ensures var a := FirstWork(compare, d, n, tags).value; !a.Activate? && a.tag in Tags(d)
  {
    assert tags[0] in tags;
    if Built(n, tags[0]) && Ready(n, ProviderTag(compare, d, n, tags[0])) { FirstWorkTag(compare, d, n, tags[1..]); }
  }

  lemma {:induction false} FirstUncheckedTag(n: Observed, tags: seq<Tag>)
    requires FirstUnchecked(n, tags).Some?
    ensures FirstUnchecked(n, tags).value in tags
  {
    if Deployed(n, tags[0]) { FirstUncheckedTag(n, tags[1..]); }
  }

  // ----- The bounded loop -----

  datatype Exit = Complete | Blocked | GaveUp | Raised

  /** After so many turns a run without strays still ends where it was bound to, and that many actions sooner. */
  ghost predicate OnTrack(host: Host, compare: Comparison, d: Desired, o0: Observed, o: Observed, force: Option<Tag>,
                          turns: nat) {
    var n0, n := Normalize(host, d, o0), Normalize(host, d, o);
    && Good(host, d, n0) && Good(host, d, n)
    && ActionsLeft(host, compare, d, n0, force) == ActionsLeft(host, compare, d, n, force) + turns
    && Final(host, compare, d, n0, force) == Final(host, compare, d, n, force)
    && WillBlock(host, d, n0, force) == WillBlock(host, d, n, force)
  }

  /** How a run without strays ends, told from where it starts. */
  ghost predicate Outcome(host: Host, compare: Comparison, d: Desired, o0: Observed, force: Option<Tag>, exit: Exit,
                          o: Observed) {
    var n0 := Normalize(host, d, o0);
    && Good(host, d, n0)
    && (exit.GaveUp? <==> ActionsLeft(host, compare, d, n0, force) >= 100)
    && (!exit.GaveUp? ==>
          && exit == (if WillBlock(host, d, n0, force) then Blocked else Complete)
          && o == Final(host, compare, d, n0, force)
          && (exit.Complete? <==> AsDesired(compare, d, o)))
  }

  lemma StartsOnTrack(host: Host, compare: Comparison, d: Desired, o: Observed, force: Option<Tag>)
    requires Sane(host) && Assigned(d) && Recorded(host, d, o) && NoStray(host, d, o)
    ensures OnTrack(host, compare, d, o, o, force, 0)
  {
    RecordedIsConsistent(host, d, o);
    NormalizeSettles(host, d, o);
  }

  lemma StaysOnTrack(host: Host, compare: Comparison, d: Desired, o0: Observed, o: Observed, force: Option<Tag>,
                     turns: nat, a: Action)
    requires OnTrack(host, compare, d, o0, o, force, turns)
    requires MakePlan(compare, d, Normalize(host, d, o), force).action == Some(a)
    ensures a.Activate? || a.tag in Tags(d)
    ensures OnTrack(host, compare, d, o0, Act(host, compare, d, Normalize(host, d, o), force, a), force, turns + 1)
  {
    var n := Normalize(host, d, o);
    ActionCounts(host, compare, d, n, force, a);
    ActionKeepsBlock(host, compare, d, n, force, a);
  }

  lemma EndsOnTrack(host: Host, compare: Comparison, d: Desired, o0: Observed, o: Observed, force: Option<Tag>,
                    turns: nat, exit: Exit)
    requires OnTrack(host, compare, d, o0, o, force, turns) && turns < 100
    requires var p := MakePlan(compare, d, Normalize(host, d, o), force);
             p.action.None? && exit == if p.Converged() then Complete else Blocked
    ensures Outcome(host, compare, d, o0, force, exit, Normalize(host, d, o))
  {
    var n := Normalize(host, d, o);
    NothingLeft(host, compare, d, n, force);
    RunEnds(host, compare, d, n, force);
    ConvergedMeans(compare, d, n, force);
  }

  /** A plan without an action has every production release built, and a converged one the staging release too. */
  lemma EndsBuilt(compare: Comparison, d: Desired, n: Observed, force: Option<Tag>, tag: Tag)
    requires Assigned(d) && tag in Tags(d) && MakePlan(compare, d, n, force).action.None?
    requires tag in ProductionTags(d) || MakePlan(compare, d, n, force).Converged()
    ensures Built(n, tag)
  {
    if MakePlan(compare, d, n, force).Converged() {
      ConvergedMeans(compare, d, n, force);
      assert Served(compare, d, n, tag);
    } else {
      var i :| 0 <= i < |ProductionTags(d)| && ProductionTags(d)[i] == tag;
      NoFirstWork(compare, d, n, ProductionTags(d), i);
    }
  }

  lemma NoStrayAtEnd(host: Host, compare: Comparison, d: Desired, o0: Observed, o: Observed, force: Option<Tag>)
    requires Assigned(d) && SameStrays(host, d, o0, o)
    requires forall tag | tag in Tags(d) :: !(Built(o, tag) && Stray(host, o, tag))
    requires MakePlan(compare, d, Normalize(host, d, o), force).action.None?
    ensures forall tag | tag in ProductionTags(d) :: !Stray(host, o0, tag)
    ensures MakePlan(compare, d, Normalize(host, d, o), force).Converged() ==>
              NoStray(host, d, o0) && AsDesired(compare, d, Normalize(host, d, o))
  {
    var n := Normalize(host, d, o);
    ConvergedMeans(compare, d, n, force);
    forall tag | tag in Tags(d) && (tag in ProductionTags(d) || MakePlan(compare, d, n, force).Converged())
      ensures !Stray(host, o0, tag)
    {
      EndsBuilt(compare, d, n, force, tag);
      NormalizeKeys(host, d, o, tag);
    }
    forall tag | tag in ProductionTags(d) ensures tag in Tags(d) { ProductionTagIn(d, tag); }
  }

  // ----- A run, strays or not -----

  /** The run from `o0` has come to `o` through this many turns. */
  ghost predicate Going(host: Host, compare: Comparison, d: Desired, o0: Observed, o: Observed, force: Option<Tag>,
                        turns: nat) {
    && Tags(d) <= o.releases.Keys && SameStrays(host, d, o0, o)
    && (NoStray(host, d, o0) ==> OnTrack(host, compare, d, o0, o, force, turns))
    && if turns == 0 then o == o0 else !BuiltStray(host, d, o0)
  }

  /**
   How the run from `o0` ends. Without strays as foreseen; with one it never completes, it raises at once if that
   one is built, and it blocks only if no stray is on the production channel.
   */
  ghost predicate Ended(host: Host, compare: Comparison, d: Desired, o0: Observed, force: Option<Tag>, exit: Exit,
                        o: Observed) {
    && (NoStray(host, d, o0) ==> Outcome(host, compare, d, o0, force, exit, o))
    && (exit.Raised? ==> !NoStray(host, d, o0)) && (BuiltStray(host, d, o0) ==> exit.Raised?)
    && (exit.Complete? ==> AsDesired(compare, d, o) && NoStray(host, d, o0))
    && (exit.Blocked? ==> forall tag | tag in ProductionTags(d) :: !Stray(host, o0, tag))
  }

  lemma TurnRaises(host: Host, compare: Comparison, d: Desired, o0: Observed, o: Observed, force: Option<Tag>,
                   turns: nat, o': Observed)
    requires Going(host, compare, d, o0, o, force, turns) && BuiltStray(host, d, o)
    ensures Ended(host, compare, d, o0, force, Raised, o')
  {}

  lemma NoBuiltStray(host: Host, compare: Comparison, d: Desired, o0: Observed, o: Observed, force: Option<Tag>,
                     turns: nat)
    requires Going(host, compare, d, o0, o, force, turns) && !BuiltStray(host, d, o)
    ensures !BuiltStray(host, d, o0)
  {}

  lemma TurnEnds(host: Host, compare: Comparison, d: Desired, o0: Observed, o: Observed, force: Option<Tag>, turns: nat)
    requires Assigned(d) && Going(host, compare, d, o0, o, force, turns) && turns < 100 && !BuiltStray(host, d, o)
    requires MakePlan(compare, d, Normalize(host, d, o), force).action.None?
    ensures var n := Normalize(host, d, o);
            var exit := if MakePlan(compare, d, n, force).Converged() then Complete else Blocked;
            Ended(host, compare, d, o0, force, exit, n)
  {
    var exit := if MakePlan(compare, d, Normalize(host, d, o), force).Converged() then Complete else Blocked;
    NoBuiltStray(host, compare, d, o0, o, force, turns);
    if NoStray(host, d, o0) { EndsOnTrack(host, compare, d, o0, o, force, turns, exit); }
    NoStrayAtEnd(host, compare, d, o0, o, force);
  }

  lemma TurnGoes(host: Host, compare: Comparison, d: Desired, o0: Observed, o: Observed, force: Option<Tag>, turns: nat,
                 a: Action)
    requires Going(host, compare, d, o0, o, force, turns) && !BuiltStray(host, d, o)
    requires MakePlan(compare, d, Normalize(host, d, o), force).action == Some(a)
    ensures var n := Normalize(host, d, o);
            && Tags(d) <= n.releases.Keys && (a.Activate? || a.tag in n.releases)
            && Going(host, compare, d, o0, Act(host, compare, d, n, force, a), force, turns + 1)
  {
    var n := Normalize(host, d, o);
    NoBuiltStray(host, compare, d, o0, o, force, turns);
    StraysObserved(host, d, o0, o);
    PlannedTag(compare, d, n, force, a);
    StraysActed(host, compare, d, o0, n, force, a);
    if NoStray(host, d, o0) { StaysOnTrack(host, compare, d, o0, o, force, turns, a); }
  }

  class Controller {
    const host: Host
    const compare: Comparison
    const desired: Desired
    const force: Option<Tag>
    var observed: Observed

    constructor (host: Host, compare: Comparison, desired: Desired, force: Option<Tag>, observed: Observed)
      ensures this.host == host && this.compare == compare && this.desired == desired && this.force == force
      ensures this.observed == observed
    {
      this.host, this.compare, this.desired, this.force, this.observed := host, compare, desired, force, observed;
    }

    /** A loop over the release records. */
    method ForEachRelease(f: (Tag, Release) -> Release, tags: set<Tag>)
      requires tags <= observed.releases.Keys
      modifies this
      ensures observed == old(observed).(releases := observed.releases)
      ensures Rewritten(old(observed).releases, observed.releases, f, tags)
    {
      var rest := tags;
      while rest != {}
        invariant rest <= tags && observed == old(observed).(releases := observed.releases)
        invariant Rewritten(old(observed).releases, observed.releases, f, tags - rest)
        decreases |rest|
      {
        var tag :| tag in rest;
        observed := observed.(releases := observed.releases[tag := f(tag, observed.releases[tag])]);
        rest := rest - {tag};
      }
    }

    /** A loop over the daemon records. */
    method ForEachInstance(f: (InstanceId, Instance) -> Instance)
      modifies this
      ensures observed == old(observed).(instances := observed.instances)
      ensures Redone(old(observed).instances, observed.instances, f, old(observed).instances.Keys)
    {
      var ids := observed.instances.Keys;
      var rest := ids;
      while rest != {}
        invariant rest <= ids && observed == old(observed).(instances := observed.instances)
        invariant Redone(old(observed).instances, observed.instances, f, ids - rest)
        decreases |rest|
      {
        var id :| id in rest;
        observed := observed.(instances := observed.instances[id := f(id, observed.instances[id])]);
        rest := rest - {id};
      }
    }

    /** The four loops over release records that an activation makes, and the channels set between them. */
    method RecordActivation(serving: Desired, bindings: map<Tag, Binding>)
      requires desired.production in observed.releases && bindings.Keys <= observed.releases.Keys
      modifies this
      ensures observed == Observed(map tag | tag in old(observed).releases ::
                                     ActivateRelease(host, desired, old(observed), bindings, force, tag),
                                   old(observed).instances, Some(desired.production), serving.staging, desired.sunset,
                                   old(observed).generation + 1, false, true)
      ensures forall tag | tag in old(observed).releases ::
                observed.releases[tag].instance == old(observed).releases[tag].instance
    {
      ghost var o := observed;
      var deadline, production := host.deadline, desired.production;
      var bypassed := observed.production != Some(production) && force == Some(production);
      ForEachRelease((tag, r) => Bypass(r, bypassed), {production});
      observed := observed.(production := Some(production), staging := serving.staging, sunset := desired.sunset,
                            generation := observed.generation + 1, dirty := false, gcPending := true);
      ghost var m1 := observed.releases;
      ForEachRelease((tag, r) => Rebound(r, bindings, tag), bindings.Keys);
      ghost var m2 := observed.releases;
      ForEachRelease((tag, r) => Invalidated(r, bindings, tag), bindings.Keys);
      ghost var m3 := observed.releases;
      ForEachRelease((tag, r) => DrainedRelease(r, bindings, tag, deadline), observed.releases.Keys);
      RecordsOfActivation(host, desired, o, bindings, force, m1, m2, m3, observed.releases);
    }

    /** The two loops over daemon records: draining the ones routed away from, then retirement. */
    method DrainAndRetire(ghost o: Observed, bindings: map<Tag, Binding>)
      requires observed.instances == o.instances && observed.releases.Keys == o.releases.Keys
      requires forall tag | tag in o.releases :: observed.releases[tag].instance == o.releases[tag].instance
      modifies this
      ensures observed == old(observed).(instances := map id | id in o.instances ::
                                           ActivateInstance(host, desired, o, bindings, id))
    {
      var deadline, providers := host.deadline, ProviderIds(bindings);
      ForEachInstance((id, i) => DrainedInstance(i, id in providers, deadline));
      ghost var i1 := observed.instances;
      var releases, expired, tags := observed.releases, host.expired, Tags(desired);
      ForEachInstance((id, i) =>
          RetiredInstance(i, id in providers, !Keeps(tags, releases, id) && expired(id), deadline));
      DaemonsOfActivation(host, desired, o, bindings, i1, observed.instances, releases);
    }

    /** The record keeping of `activate` once the switch has succeeded, in the source's order. */
    method Activate()
      requires Tags(Serving(desired, observed)) <= observed.releases.Keys
      modifies this
      ensures observed == AfterActivate(host, compare, desired, old(observed), force)
      ensures SwitchedOver(host, desired, old(observed), observed, force)
    {
      ActivationSwitchesOver(host, compare, desired, observed, force);
      ghost var o := observed;
      var serving := Serving(desired, observed);
      var bindings := Resolve(compare, serving, observed);
      RecordActivation(serving, bindings);
      DrainAndRetire(o, bindings);
    }

    /** `adopt_legacy_production_if_exact`. */
    method AdoptProduction()
      modifies this
      ensures observed == Adopt(host, desired, old(observed))
      ensures var o, p := old(observed), desired.production;
              if o.production.None? && o.generation == 0 && p in o.releases && o.releases[p].build.Passed?
                 && o.releases[p].endpoint.Some? && o.releases[p].feed.Running?
                 && host.legacyCommit == Some(o.releases[p].commit)
              then && OnlyRelease(o, observed.(production := o.production, sunset := o.sunset), p)
                   && observed.releases[p] == o.releases[p].(qualification := Passed)
                   && observed.production == Some(p) && observed.sunset == desired.sunset
              else observed == o
    {
      if Adoptable(host, desired, observed) {
        var production := desired.production;
        var r := observed.releases[production].(qualification := Passed);
        observed := observed.(releases := observed.releases[production := r]);
        observed := observed.(production := Some(production), sunset := desired.sunset);
      }
    }

    /** One release's turn of `refresh_live_feed_observations`. */
    method PrepareRelease(ghost o: Observed, ghost done: set<Tag>, tag: Tag) returns (raised: bool)
      requires Preparing(host, desired, o, observed, done) && tag in Tags(desired) && tag !in done
      modifies this
      ensures raised == (Built(o, tag) && Stray(host, o, tag))
      ensures !raised ==> Preparing(host, desired, o, observed, done + {tag})
    {
      PreparingSees(host, desired, o, observed, done, tag);
      if !Built(observed, tag) {
        PreparingUnbuilt(host, desired, o, observed, done, tag);
        return false;
      }
      if Stray(host, observed, tag) { return true; }
      PreparingRecords(host, desired, o, observed.releases, done, tag);
      PreparingDaemons(host, desired, o, observed.instances, done, tag);
      observed := observed.(instances := PrepareDaemon(host, observed.instances, tag));
      observed := observed.(releases := observed.releases[tag := PrepareRecord(host, observed.releases[tag], tag)]);
      raised := false;
    }

    /** `refresh_live_feed_observations`, which raises on a built release that lost its description. */
    method RefreshLiveFeeds() returns (raised: bool)
      modifies this
      ensures raised <==>
                exists tag | tag in Tags(desired) :: Built(old(observed), tag) && Stray(host, old(observed), tag)
      ensures !raised ==> observed == Refresh(host, desired, old(observed))
      ensures !raised ==> RefreshedSo(host, desired, old(observed), observed)
    {
      ghost var o := observed;
      var rest := Tags(desired);
      while rest != {}
        invariant rest <= Tags(desired) && Preparing(host, desired, o, observed, Tags(desired) - rest)
        invariant forall tag | tag in Tags(desired) - rest :: !(Built(o, tag) && Stray(host, o, tag))
        decreases |rest|
      {
        var tag :| tag in rest;
        raised := PrepareRelease(o, Tags(desired) - rest, tag);
        if raised { return; }
        assert Tags(desired) - (rest - {tag}) == Tags(desired) - rest + {tag};
        rest := rest - {tag};
      }
      assert Tags(desired) - rest == Tags(desired);
      ObserveInstances(o);
      RefreshMeans(host, desired, o);
      raised := false;
    }

    method ObserveInstances(ghost o: Observed)
      requires Preparing(host, desired, o, observed, Tags(desired))
      modifies this
      ensures observed == Refresh(host, desired, o)
    {
      ghost var prepared := observed;
      var host := host;
      ForEachInstance((id, i) => Observe(host, id, i));
      PreparedIsRefreshed(host, desired, o, prepared, observed);
    }

    method Build(tag: Tag)
      requires tag in observed.releases
      modifies this
      ensures observed == AfterBuild(host, old(observed), tag)
      ensures OnlyRelease(old(observed), observed, tag)
      ensures BuiltAnew(host, old(observed).releases[tag], observed.releases[tag], tag)
    {
      var r := observed.releases[tag];
      r := r.(manifest := Some(host.manifest(tag)), root := Some(host.root(tag)), build := Passed);
      observed := observed.(releases := observed.releases[tag := r.(qualification := Pending, deployment := Pending)]);
    }

    method StartLiveFeeds(tag: Tag)
      requires tag in observed.releases
      modifies this
      ensures observed == AfterStart(host, old(observed), tag)
      ensures FeedsUp(host, old(observed), observed, tag)
    {
      var r := observed.releases[tag];
      if r.instance.None? {
        var endpoint := if r.endpoint.Some? then r.endpoint else Some(host.endpoint(tag));
        r := r.(endpoint := endpoint, feed := Running, draining := None);
        observed := observed.(releases := observed.releases[tag := r]);
      } else if r.instance.value in observed.instances {
        var id := r.instance.value;
        var i := observed.instances[id].(status := Running, evidence := Some(host.evidence(id)), draining := None);
        observed := observed.(instances := observed.instances[id := i]);
      }
    }

    method CheckDeployment(tag: Tag)
      requires tag in observed.releases
      modifies this
      ensures observed == AfterCheck(old(observed), tag)
      ensures OnlyRelease(old(observed), observed, tag)
      ensures observed.releases[tag] == old(observed).releases[tag].(deployment := Passed)
    {
      observed := observed.(releases := observed.releases[tag := observed.releases[tag].(deployment := Passed)]);
    }

    method Qualify(tag: Tag)
      requires tag in observed.releases
      modifies this
      ensures observed == AfterQualify(old(observed), tag)
      ensures OnlyRelease(old(observed), observed, tag)
      ensures observed.releases[tag] == old(observed).releases[tag].(deployment := Passed, qualification := Passed)
    {
      CheckDeployment(tag);
      observed := observed.(releases := observed.releases[tag := observed.releases[tag].(qualification := Passed)]);
    }

    method Perform(a: Action)
      requires if a.Activate? then Tags(Serving(desired, observed)) <= observed.releases.Keys
                 else a.tag in observed.releases
      modifies this
      ensures observed == Act(host, compare, desired, old(observed), force, a)
    {
      match a {
        case BuildRelease(tag) => Build(tag);
        case StartFeeds(tag) => StartLiveFeeds(tag);
        case Activate => Activate();
        case Qualify(tag) => Qualify(tag);
        case CheckDeployment(tag) => CheckDeployment(tag);
      }
    }

    /** What a turn does before it plans. */
    method ObserveHost() returns (raised: bool)
      modifies this
      ensures raised <==>
                exists tag | tag in Tags(desired) :: Built(old(observed), tag) && Stray(host, old(observed), tag)
      ensures !raised ==> observed == Normalize(host, desired, old(observed))
    {
      ghost var o := observed;
      AdoptProduction();
      assert forall tag :: Built(observed, tag) == Built(o, tag) && Stray(host, observed, tag) == Stray(host, o, tag);
      raised := RefreshLiveFeeds();
    }

    /** One turn of the loop: it ends the run, or performs one action. */
    method Turn(ghost o: Observed, ghost turns: nat) returns (exit: Option<Exit>)
      requires Assigned(desired) && Going(host, compare, desired, o, observed, force, turns) && turns < 100
      modifies this
      ensures if exit.Some? then Ended(host, compare, desired, o, force, exit.value, observed)
              else Going(host, compare, desired, o, observed, force, turns + 1)
    {
      ghost var before := observed;
      var raised := ObserveHost();
      if raised {
        TurnRaises(host, compare, desired, o, before, force, turns, observed);
        return Some(Raised);
      }
      var plan := MakePlan(compare, desired, observed, force);
      if plan.action.None? {
        TurnEnds(host, compare, desired, o, before, force, turns);
        return Some(if plan.Converged() then Complete else Blocked);
      }
      TurnGoes(host, compare, desired, o, before, force, turns, plan.action.value);
      Perform(plan.action.value);
      exit := None;
    }

    /**
     `reconcile`. Without strays the exit, and whether the loop gives up, follow from the starting
     observations. With one the run never completes, and raises at once if it is built already.
     */
    method Reconcile() returns (exit: Exit)
      requires Sane(host) && Assigned(desired) && Recorded(host, desired, observed)
      modifies this
      ensures Ended(host, compare, desired, old(observed), force, exit, observed)
    {
      ghost var o := observed;
      if NoStray(host, desired, o) { StartsOnTrack(host, compare, desired, o, force); }
      for turn := 0 to 100
        invariant Going(host, compare, desired, o, observed, force, turn)
      {
        var end := Turn(o, turn);
        if end.Some? { return end.value; }
      }
      exit := GaveUp;
    }
  }

  /** Some desired release has this daemon. */
  predicate Keeps(tags: set<Tag>, releases: map<Tag, Release>, id: InstanceId) {
    exists tag | tag in tags && tag in releases :: releases[tag].instance == Some(id)
  }

  /** The turns one record takes. */
  lemma OneRecord(host: Host, d: Desired, o: Observed, bindings: map<Tag, Binding>, force: Option<Tag>, tag: Tag,
                  r1: Release, r2: Release, r3: Release, r4: Release)
    requires tag in o.releases
    requires var bypassed := o.production != Some(d.production) && force == Some(d.production);
             r1 == if tag == d.production then Bypass(o.releases[tag], bypassed) else o.releases[tag]
    requires r2 == if tag in bindings then Rebound(r1, bindings, tag) else r1
    requires r3 == if tag in bindings then Invalidated(r2, bindings, tag) else r2
    requires r4 == DrainedRelease(r3, bindings, tag, host.deadline)
    ensures r4 == ActivateRelease(host, d, o, bindings, force, tag) && r4.instance == o.releases[tag].instance
  {}

  /** The four loops over the release records of an activation. */
  ghost predicate RecordLoops(host: Host, d: Desired, o: Observed, bindings: map<Tag, Binding>, force: Option<Tag>,
                              m1: map<Tag, Release>, m2: map<Tag, Release>, m3: map<Tag, Release>,
                              m4: map<Tag, Release>) {
    var bypassed := o.production != Some(d.production) && force == Some(d.production);
    && Rewritten(o.releases, m1, (tag, r) => Bypass(r, bypassed), {d.production})
    && Rewritten(m1, m2, (tag, r) => Rebound(r, bindings, tag), bindings.Keys)
    && Rewritten(m2, m3, (tag, r) => Invalidated(r, bindings, tag), bindings.Keys)
    && Rewritten(m3, m4, (tag, r) => DrainedRelease(r, bindings, tag, host.deadline), m3.Keys)
  }

  lemma RecordOfActivation(host: Host, d: Desired, o: Observed, bindings: map<Tag, Binding>, force: Option<Tag>,
                           tag: Tag,
                           m1: map<Tag, Release>, m2: map<Tag, Release>, m3: map<Tag, Release>, m4: map<Tag, Release>)
    requires RecordLoops(host, d, o, bindings, force, m1, m2, m3, m4) && tag in o.releases
    ensures tag in m4 && m4[tag] == ActivateRelease(host, d, o, bindings, force, tag)
    ensures m4[tag].instance == o.releases[tag].instance
  {
    OneRecord(host, d, o, bindings, force, tag, m1[tag], m2[tag], m3[tag], m4[tag]);
  }

  lemma RecordsOfActivation(host: Host, d: Desired, o: Observed, bindings: map<Tag, Binding>, force: Option<Tag>,
                            m1: map<Tag, Release>, m2: map<Tag, Release>, m3: map<Tag, Release>, m4: map<Tag, Release>)
    requires RecordLoops(host, d, o, bindings, force, m1, m2, m3, m4)
    ensures m4 == map tag | tag in o.releases :: ActivateRelease(host, d, o, bindings, force, tag)
    ensures forall tag | tag in o.releases :: m4[tag].instance == o.releases[tag].instance
  {
    assert m4.Keys == o.releases.Keys;
    forall tag | tag in o.releases
      ensures m4[tag] == ActivateRelease(host, d, o, bindings, force, tag)
      ensures m4[tag].instance == o.releases[tag].instance
    {
      RecordOfActivation(host, d, o, bindings, force, tag, m1, m2, m3, m4);
    }
  }

  lemma OneDaemon(host: Host, d: Desired, o: Observed, bindings: map<Tag, Binding>, id: InstanceId, kept: bool)
    requires id in o.instances
    requires kept <==> exists tag | tag in Tags(d) && tag in o.releases :: o.releases[tag].instance == Some(id)
    ensures var serving := id in ProviderIds(bindings);
            var drained := DrainedInstance(o.instances[id], serving, host.deadline);
            RetiredInstance(drained, serving, !kept && host.expired(id), host.deadline)
                == ActivateInstance(host, d, o, bindings, id)
  {}

  lemma DaemonsOfActivation(host: Host, d: Desired, o: Observed, bindings: map<Tag, Binding>,
                            i1: map<InstanceId, Instance>, i2: map<InstanceId, Instance>, releases: map<Tag, Release>)
    requires releases.Keys == o.releases.Keys
    requires forall tag | tag in o.releases :: releases[tag].instance == o.releases[tag].instance
    requires var ids := ProviderIds(bindings);
             Redone(o.instances, i1, (id, i) => DrainedInstance(i, id in ids, host.deadline), o.instances.Keys)
    requires var ids := ProviderIds(bindings);
             var retired := (id: InstanceId, i: Instance) =>
               RetiredInstance(i, id in ids, !Keeps(Tags(d), releases, id) && host.expired(id), host.deadline);
             Redone(i1, i2, retired, i1.Keys)
    ensures i2 == map id | id in o.instances :: ActivateInstance(host, d, o, bindings, id)
  {
    forall id | id in o.instances ensures i2[id] == ActivateInstance(host, d, o, bindings, id) {
      OneDaemon(host, d, o, bindings, id, Keeps(Tags(d), releases, id));
    }
  }

  // ----- A run that gives up -----

  /** Twenty-three sunset releases that share no daemon, besides production and staging. */
  function Crowd(): Desired {
    var sunset := seq(23, (i: nat) => seq(i + 1, (_: nat) => 'a'));
    Desired("p", Some("s"), sunset, set tag | tag in sunset)
  }

  /** Serving a crowd from scratch takes 101 actions, so the controller gives up although every action succeeds. */
  lemma CrowdGivesUp(compare: Comparison)
    ensures Assigned(Crowd()) && Recorded(LegacyHost(), Crowd(), Unbuilt(Crowd()))
    ensures NoStray(LegacyHost(), Crowd(), Unbuilt(Crowd()))
    ensures var n := Normalize(LegacyHost(), Crowd(), Unbuilt(Crowd()));
            ActionsLeft(LegacyHost(), compare, Crowd(), n, None) == 101 && !WillBlock(LegacyHost(), Crowd(), n, None)
  {
    var d := Crowd();
    forall i, j | 0 <= i < j < |d.sunset|
      ensures d.sunset[i] != d.sunset[j]
    {
      assert |d.sunset[i]| == i + 1 != |d.sunset[j]|;
    }
    assert d.sunset[0][0] == 'a';
    forall i | 0 <= i < |d.sunset| ensures d.sunset[i] != "p" && d.sunset[i] != "s" { assert d.sunset[i][0] == 'a'; }
    BoundIsReached(compare, d);
    StepsAreCounted(LegacyHost(), compare, d, Unbuilt(d), None);
    SettledIsFixed(LegacyHost(), d, Unbuilt(d));
  }
}
