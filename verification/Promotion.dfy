/**
 How a release becomes production, over every sequence of controller runs with interruptions
 (tools/reconcile_prod_releases.py, tools/release_reconciler.py, tools/release_retirement.py): the
 controller's memory, the saved state, the generations' metadata and the link that serves one of them.
 */
module Promotion {
  import opened Wrappers
  import opened Releases
  import Reconcile

  /** `generation.json`. */
  datatype Meta = Meta(production: Tag, staging: Option<Tag>, sunset: seq<Tag>, bypass: bool)

  /** What happened so far, recorded as it happens: nothing the controller does depends on it. */
  datatype History = History(staged: set<Tag>, qualified: set<Tag>, forced: set<Tag>, adopted: set<Tag>)

  /** `pending` is an activation in progress and `previous` the link before it. */
  datatype State = State(
    memory: Observed, saved: Observed, desired: Desired, force: Option<Tag>,
    generations: map<nat, Meta>, link: Option<nat>, pending: Option<nat>, previous: Option<nat>, history: History)

  datatype Action =
    | NewRun(desired: Desired, force: Option<Tag>)
    | AddRecord(tag: Tag, commit: string)
    | Lapse(tag: Tag)
    | Build(tag: Tag, manifest: string, root: string)
    | BuildFails(tag: Tag)
    | RefreshProducts(tag: Tag, manifest: string)
    | Rewire(tag: Tag, record: Release, instances: map<InstanceId, Instance>)
    | CheckDeployment(tag: Tag, verdict: Status)
    | Qualify(tag: Tag)
    | QualifyFails(tag: Tag)
    | Adopt
    | Materialize
    | SwitchLink
    | Rollback
    | Commit
    | Recover
    | DropGeneration(number: nat)
    | Forget(tag: Tag)
    | Save
    | Crash

  /** A record as `ObservedRelease` creates it. */
  function Fresh(commit: string): Release {
    Release(commit, Pending, Pending, Pending, None, None, None, NotStarted, None, None, None, None, None)
  }

  /** What daemons and bindings change in a record. */
  predicate FeedOnly(r: Release, r': Release) {
    r' == r.(endpoint := r'.endpoint, feed := r'.feed, requirements := r'.requirements, instance := r'.instance,
             provider := r'.provider, reason := r'.reason, draining := r'.draining)
  }

  /** `forget_removed_artifacts`. */
  function Forgotten(r: Release): Release { Fresh(r.commit).(feed := Stopped) }

  predicate Serves(o: Observed, tag: Tag) { o.production == Some(tag) || o.staging == Some(tag) || tag in o.sunset }

  function Next(o: Observed): nat { o.generation + 1 }

  /** The metadata that `activate` writes. */
  function NewMeta(s: State): Meta {
    Meta(s.desired.production, ReadyStaging(s.desired, s.memory), s.desired.sunset,
         s.memory.production != Some(s.desired.production) && s.force == Some(s.desired.production))
  }

  predicate Enabled(compare: Comparison, s: State, a: Action) {
    match a
    case NewRun(desired, force) => force.None? || force == Some(desired.production)
    case AddRecord(tag, _) => tag !in s.memory.releases
    case Lapse(tag) => tag in s.memory.releases
    case Build(tag, _, _) => tag in s.memory.releases && !Built(s.memory, tag)
    case BuildFails(tag) => tag in s.memory.releases && !Built(s.memory, tag)
    case RefreshProducts(tag, _) => Built(s.memory, tag)
    case Rewire(tag, record, _) => tag in s.memory.releases && FeedOnly(s.memory.releases[tag], record)
    case CheckDeployment(tag, _) => tag in s.memory.releases
    case Qualify(tag) => Built(s.memory, tag) && s.memory.staging == Some(tag)
    case QualifyFails(tag) => tag in s.memory.releases
    case Adopt =>
      s.memory.production.None? && s.memory.generation == 0 && Built(s.memory, s.desired.production)
    case Materialize =>
      && s.pending.None? && s.link != Some(Next(s.memory))
      && MakePlan(compare, s.desired, s.memory, s.force).action == Some(Activate)
    case SwitchLink => s.pending.Some?
    case Rollback => s.pending.Some?
    case Commit => s.pending.Some? && s.link == s.pending && s.pending.value in s.generations
    case Recover =>
      && s.pending.None? && s.link.Some? && s.link.value in s.generations && s.link.value > s.memory.generation
      && var m := s.generations[s.link.value];
      m.production == s.desired.production && m.staging == ReadyStaging(s.desired, s.memory)
      && m.sunset == s.desired.sunset
    case DropGeneration(number) => s.link != Some(number) && s.pending != Some(number)
    case Forget(tag) => tag in s.memory.releases && tag !in Tags(s.desired) && !Serves(s.memory, tag)
    case Save => true
    case Crash => true
  }

  function PutRelease(o: Observed, tag: Tag, r: Release): Observed { o.(releases := o.releases[tag := r]) }

  /** The channels of a generation become the recorded ones; a bypassed qualification is recorded as such. */
  function Serve(o: Observed, number: nat, m: Meta): Observed {
    o.(production := Some(m.production), staging := m.staging, sunset := m.sunset,
       generation := number, dirty := false, gcPending := true,
       releases := map tag | tag in o.releases ::
         var r := if m.bypass && tag == m.production then o.releases[tag].(qualification := Bypassed)
             else o.releases[tag];
         if tag == m.production || m.staging == Some(tag) || tag in m.sunset then r.(deployment := Pending) else r)
  }

  function SeeStaging(h: History, o: Observed): History {
    if o.staging.Some? then h.(staged := h.staged + {o.staging.value}) else h
  }

  function Apply(compare: Comparison, s: State, a: Action): State
    requires Enabled(compare, s, a)
  {
    var o := s.memory;
    match a
    case NewRun(desired, force) => s.(memory := s.saved, desired := desired, force := force, pending := None,
                                     previous := None)
    case AddRecord(tag, commit) => s.(memory := PutRelease(o, tag, Fresh(commit)))
    case Lapse(tag) => s.(memory := PutRelease(o, tag,
                         o.releases[tag].(qualification := Pending, deployment := Pending)))
    case Build(tag, manifest, root) =>
      s.(memory := PutRelease(o, tag, o.releases[tag].(
           build := Passed, qualification := Pending, deployment := Pending,
           manifest := Some(manifest), root := Some(root))))
    case BuildFails(tag) => s.(memory := PutRelease(o, tag, o.releases[tag].(build := Failed)))
    case RefreshProducts(tag, manifest) =>
      s.(memory := PutRelease(o, tag,
          o.releases[tag].(qualification := Pending, manifest := Some(manifest))).(dirty := true))
    case Rewire(tag, record, instances) => s.(memory := PutRelease(o, tag, record).(instances := instances))
    case CheckDeployment(tag, verdict) => s.(memory := PutRelease(o, tag, o.releases[tag].(deployment := verdict)))
    case Qualify(tag) =>
      s.(memory := PutRelease(o, tag, o.releases[tag].(qualification := Passed, deployment := Passed)),
         history := s.history.(qualified := if o.staging == Some(tag) then s.history.qualified + {tag}
             else s.history.qualified))
    case QualifyFails(tag) => s.(memory := PutRelease(o, tag,
                                o.releases[tag].(qualification := Failed, deployment := Failed)))
    case Adopt =>
      var p := s.desired.production;
      var m := PutRelease(o, p, o.releases[p].(qualification := Passed)).(production := Some(p),
          sunset := s.desired.sunset);
      s.(memory := m, saved := m, history := s.history.(adopted := s.history.adopted + {p}))
    case Materialize =>
      var p := s.desired.production;
      s.(generations := s.generations[Next(o) := NewMeta(s)], pending := Some(Next(o)), previous := s.link,
         history := s.history.(forced := if NewMeta(s).bypass && o.staging == Some(p) then s.history.forced + {p}
             else s.history.forced))
    case SwitchLink => s.(link := s.pending)
    case Rollback => s.(link := if s.previous.Some? then s.previous else s.link, pending := None)
    case Commit =>
      var m := Serve(o, s.pending.value, s.generations[s.pending.value]);
      s.(memory := m, pending := None, history := SeeStaging(s.history, m))
    case Recover =>
      var m := Serve(o, s.link.value, s.generations[s.link.value]);
      s.(memory := m, history := SeeStaging(s.history, m))
    case DropGeneration(number) => s.(generations := s.generations - {number})
    case Forget(tag) => s.(memory := PutRelease(o, tag, Forgotten(o.releases[tag])))
    case Save => s.(saved := s.memory)
    case Crash => s.(memory := s.saved, pending := None, previous := None)
  }

  ghost predicate IsRun(compare: Comparison, s: State, run: seq<Action>)
    decreases |run|, 0
  {
    run == [] || (IsRun(compare, s, run[..|run| - 1])
        && Enabled(compare, After(compare, s, run[..|run| - 1]), run[|run| - 1]))
  }

  ghost function After(compare: Comparison, s: State, run: seq<Action>): State
    requires IsRun(compare, s, run)
    decreases |run|, 1
  {
    if run == [] then s else Apply(compare, After(compare, s, run[..|run| - 1]), run[|run| - 1])
  }

  // ----- What every step keeps -----

  /** The release was active on staging and qualified or forced there, or was the deployment found at the start. */
  ghost predicate Earned(h: History, tag: Tag) {
    tag in h.adopted || (tag in h.staged && (tag in h.qualified || tag in h.forced))
  }

  ghost predicate SoundHistory(h: History) { h.qualified <= h.staged && h.forced <= h.staged }

  ghost predicate Grows(h: History, h': History) {
    h.staged <= h'.staged && h.qualified <= h'.qualified && h.forced <= h'.forced && h.adopted <= h'.adopted
  }

  ghost predicate SoundState(h: History, o: Observed) {
    && (o.production.Some? ==> Earned(h, o.production.value))
    && (o.staging.Some? ==> o.staging.value in h.staged)
    && (forall tag | tag in o.releases && o.releases[tag].qualification.Passed? ::
          tag in h.qualified + h.adopted && o.releases[tag].build.Passed?)
    && (h.adopted != {} ==> o.production.Some?)
    && RootedBuilds(o)
  }

  ghost predicate SoundGenerations(s: State) {
    forall number | number in s.generations :: Earned(s.history, s.generations[number].production)
  }

  ghost predicate Inv(s: State) {
    && SoundHistory(s.history) && SoundState(s.history, s.memory) && SoundState(s.history, s.saved)
    && SoundGenerations(s)
    && |s.history.adopted| <= 1
  }

  /** A fresh installation. */
  function Initial(d: Desired): State {
    var o := Observed(map[], map[], None, None, [], 0, false, false);
    State(o, o, d, None, map[], None, None, None, History({}, {}, {}, {}))
  }

  lemma HistoryStep(compare: Comparison, s: State, a: Action)
    requires Enabled(compare, s, a) && SoundHistory(s.history) && SoundState(s.history, s.memory)
    ensures Grows(s.history, Apply(compare, s, a).history) && SoundHistory(Apply(compare, s, a).history)
    ensures !a.Adopt? ==> Apply(compare, s, a).history.adopted == s.history.adopted
  {}

  lemma SoundGrows(h: History, h': History, o: Observed)
    requires SoundState(h, o) && Grows(h, h') && (h'.adopted == h.adopted || o.production.Some?)
    ensures SoundState(h', o)
  {}

  /** A record may change as long as no qualification appears from nowhere and a build has its files. */
  lemma RecordSound(h: History, o: Observed, tag: Tag, r: Release)
    requires SoundState(h, o)
    requires r.qualification.Passed? ==> tag in h.qualified + h.adopted && r.build.Passed?
    requires r.build.Passed? ==> r.manifest.Some? && r.root.Some?
    ensures SoundState(h, PutRelease(o, tag, r))
  {
    var o' := PutRelease(o, tag, r);
    forall u | Built(o', u)
      ensures o'.releases[u].manifest.Some? && o'.releases[u].root.Some?
    {
      assert u == tag || Built(o, u);
    }
  }

  lemma BuiltIsRooted(h: History, o: Observed, tag: Tag)
    requires SoundState(h, o) && tag in o.releases
    ensures o.releases[tag].build.Passed? ==> o.releases[tag].manifest.Some? && o.releases[tag].root.Some?
  {
    if o.releases[tag].build.Passed? { assert Built(o, tag); }
  }

  lemma ServeSound(h: History, o: Observed, number: nat, m: Meta)
    requires SoundState(h, o) && Earned(h, m.production)
    ensures SoundState(SeeStaging(h, Serve(o, number, m)), Serve(o, number, m))
  {
    var o' := Serve(o, number, m);
    forall u | Built(o', u) ensures o'.releases[u].manifest.Some? && o'.releases[u].root.Some? { assert Built(o, u); }
    forall u | u in o'.releases && o'.releases[u].qualification.Passed?
      ensures u in h.qualified + h.adopted && o'.releases[u].build.Passed?
    {
      assert o.releases[u].qualification.Passed?;
    }
  }

  /** Actions on one record of the memory. */
  predicate OnRecord(a: Action) {
    a.AddRecord? || a.Lapse? || a.Build? || a.BuildFails? || a.RefreshProducts? || a.Rewire? || a.CheckDeployment?
    || a.Qualify? || a.QualifyFails? || a.Forget?
  }

  lemma OnRecordStep(compare: Comparison, s: State, a: Action)
    requires Enabled(compare, s, a) && OnRecord(a) && SoundState(s.history, s.memory)
    ensures SoundState(Apply(compare, s, a).history, Apply(compare, s, a).memory)
  {
    var s', tag := Apply(compare, s, a), a.tag;
    if a.AddRecord? {
      RecordSound(s.history, s.memory, tag, Fresh(a.commit));
    } else {
      BuiltIsRooted(s.history, s.memory, tag);
      SoundGrows(s.history, s'.history, s.memory);
      RecordSound(s'.history, s.memory, tag, s'.memory.releases[tag]);
    }
  }

  /** Whenever the planner lets the desired production go live, it has earned it. */
  lemma PlanEarns(compare: Comparison, s: State)
    requires SoundHistory(s.history) && SoundState(s.history, s.memory) && Enabled(compare, s, Materialize)
    ensures Earned(Apply(compare, s, Materialize).history, s.desired.production)
  {
    var p := s.desired.production;
    NeverActivates(compare, s.desired, s.memory, ProductionTags(s.desired));
    if s.memory.production != Some(p) && s.force != Some(p) {
      assert p in s.memory.releases && s.memory.releases[p].qualification.Passed?;
    }
  }

  lemma MemoryStep(compare: Comparison, s: State, a: Action)
    requires Enabled(compare, s, a) && Inv(s)
    ensures var s' := Apply(compare, s, a); SoundState(s'.history, s'.memory) && SoundState(s'.history, s'.saved)
  {
    var s' := Apply(compare, s, a);
    HistoryStep(compare, s, a);
    match a {
      case Commit => ServeSound(s.history, s.memory, s.pending.value, s.generations[s.pending.value]);
      case Recover => ServeSound(s.history, s.memory, s.link.value, s.generations[s.link.value]);
      case Adopt => AdoptSound(compare, s);
      case _ =>
        if OnRecord(a) { OnRecordStep(compare, s, a); } else { SoundGrows(s.history, s'.history, s'.memory); }
    }
    if !a.Adopt? { SoundGrows(s.history, s'.history, if a.Save? then s.memory else s.saved); }
  }

  lemma AdoptSound(compare: Comparison, s: State)
    requires SoundState(s.history, s.memory) && Enabled(compare, s, Adopt)
    ensures var s' := Apply(compare, s, Adopt); SoundState(s'.history, s'.memory)
  {
    var s', p := Apply(compare, s, Adopt), s.desired.production;
    forall u | Built(s'.memory, u)
      ensures s'.memory.releases[u].manifest.Some? && s'.memory.releases[u].root.Some?
    {
      assert Built(s.memory, u);
    }
  }

  lemma GenerationsStep(compare: Comparison, s: State, a: Action)
    requires Enabled(compare, s, a) && Inv(s)
    ensures SoundGenerations(Apply(compare, s, a))
  {
    HistoryStep(compare, s, a);
    if a.Materialize? { PlanEarns(compare, s); }
  }

  lemma InvStep(compare: Comparison, s: State, a: Action)
    requires Enabled(compare, s, a) && Inv(s)
    ensures Inv(Apply(compare, s, a))
  {
    HistoryStep(compare, s, a);
    MemoryStep(compare, s, a);
    GenerationsStep(compare, s, a);
    if a.Adopt? { assert s.history.adopted == {}; }
  }

  lemma {:induction false} RunInv(compare: Comparison, s: State, run: seq<Action>)
    requires Inv(s) && IsRun(compare, s, run)
    ensures Inv(After(compare, s, run))
  {
    if run != [] {
      RunInv(compare, s, run[..|run| - 1]);
      InvStep(compare, After(compare, s, run[..|run| - 1]), run[|run| - 1]);
    }
  }

  // ----- The history is what happened -----

  ghost predicate StagedAt(compare: Comparison, s: State, run: seq<Action>, k: nat, tag: Tag) {
    k <= |run| && IsRun(compare, s, run[..k]) && After(compare, s, run[..k]).memory.staging == Some(tag)
  }

  ghost predicate QualifiedAt(compare: Comparison, s: State, run: seq<Action>, k: nat, tag: Tag) {
    k < |run| && run[k] == Action.Qualify(tag) && StagedAt(compare, s, run, k, tag)
  }

  /** An activation asked for by the exact tag, while it is still on staging. */
  ghost predicate ForcedAt(compare: Comparison, s: State, run: seq<Action>, k: nat, tag: Tag) {
    k < |run| && run[k].Materialize? && StagedAt(compare, s, run, k, tag)
    && After(compare, s, run[..k]).force == Some(tag)
  }

  lemma StagedEarlier(compare: Comparison, s: State, run: seq<Action>, more: seq<Action>, k: nat, tag: Tag)
    requires run <= more && StagedAt(compare, s, run, k, tag)
    ensures StagedAt(compare, s, more, k, tag)
    ensures k < |run| ==> more[k] == run[k] && more[..k] == run[..k]
  {
    assert more[..k] == run[..k];
  }

  lemma StagingSeen(compare: Comparison, s: State, a: Action, tag: Tag)
    requires Enabled(compare, s, a) && tag in Apply(compare, s, a).history.staged
    ensures tag in s.history.staged || Apply(compare, s, a).memory.staging == Some(tag)
  {}

  lemma {:induction false} StagedThen(compare: Comparison, d: Desired, run: seq<Action>, tag: Tag) returns (k: nat)
    requires IsRun(compare, Initial(d), run) && tag in After(compare, Initial(d), run).history.staged
    ensures StagedAt(compare, Initial(d), run, k, tag)
  {
    var before := run[..|run| - 1];
    StagingSeen(compare, After(compare, Initial(d), before), run[|run| - 1], tag);
    if tag in After(compare, Initial(d), before).history.staged {
      k := StagedThen(compare, d, before, tag);
      StagedEarlier(compare, Initial(d), before, run, k, tag);
    } else {
      k := |run|;
      assert run[..k] == run;
    }
  }

  lemma {:induction false} QualifiedThen(compare: Comparison, d: Desired, run: seq<Action>, tag: Tag) returns (k: nat)
    requires IsRun(compare, Initial(d), run) && tag in After(compare, Initial(d), run).history.qualified
    ensures QualifiedAt(compare, Initial(d), run, k, tag)
  {
    var before := run[..|run| - 1];
    if tag in After(compare, Initial(d), before).history.qualified {
      k := QualifiedThen(compare, d, before, tag);
      StagedEarlier(compare, Initial(d), before, run, k, tag);
    } else {
      k := |run| - 1;
    }
  }

  lemma {:induction false} ForcedThen(compare: Comparison, d: Desired, run: seq<Action>, tag: Tag) returns (k: nat)
    requires IsRun(compare, Initial(d), run) && tag in After(compare, Initial(d), run).history.forced
    ensures ForcedAt(compare, Initial(d), run, k, tag)
  {
    var before := run[..|run| - 1];
    if tag in After(compare, Initial(d), before).history.forced {
      k := ForcedThen(compare, d, before, tag);
      StagedEarlier(compare, Initial(d), before, run, k, tag);
    } else {
      k := |run| - 1;
    }
  }

  /**
   In every state that controller runs, crashes and restarts can reach from a fresh installation, the
   recorded production, the saved one and the one being served have earned it: each was active on
   staging before, and was qualified there or forced while there, or is the one legacy deployment
   that was adopted.
   */
  lemma ProductionIsEarned(compare: Comparison, d: Desired, run: seq<Action>)
    requires IsRun(compare, Initial(d), run)
    ensures var s := After(compare, Initial(d), run);
            && (s.memory.production.Some? ==> Earned(s.history, s.memory.production.value))
            && (s.saved.production.Some? ==> Earned(s.history, s.saved.production.value))
            && (s.link.Some? && s.link.value in s.generations ==>
                  Earned(s.history, s.generations[s.link.value].production))
            && s.history.qualified <= s.history.staged && s.history.forced <= s.history.staged
            && |s.history.adopted| <= 1
  {
    RunInv(compare, Initial(d), run);
  }

  /** The same in terms of the run itself: some earlier step qualified or forced the release while it was on staging. */
  lemma PromotionHasACause(compare: Comparison, d: Desired, run: seq<Action>, tag: Tag)
    requires IsRun(compare, Initial(d), run) && After(compare, Initial(d), run).memory.production == Some(tag)
    ensures || After(compare, Initial(d), run).history.adopted == {tag}
            || (exists k :: QualifiedAt(compare, Initial(d), run, k, tag))
            || (exists k :: ForcedAt(compare, Initial(d), run, k, tag))
  {
    ProductionIsEarned(compare, d, run);
    var h := After(compare, Initial(d), run).history;
    if tag in h.adopted {
      OneElement(h.adopted, tag);
    } else if tag in h.qualified {
      var k := QualifiedThen(compare, d, run, tag);
    } else {
      var k := ForcedThen(compare, d, run, tag);
    }
  }

  // ----- What is promoted is what was qualified -----

  ghost predicate AdoptedAt(compare: Comparison, s: State, run: seq<Action>, k: nat, tag: Tag) {
    k < |run| && run[k].Adopt? && IsRun(compare, s, run[..k]) && After(compare, s, run[..k]).desired.production == tag
  }

  /** The artifacts of a release: its commit, its product manifest and its files. */
  predicate SameArtifacts(r: Release, r': Release) {
    r'.commit == r.commit && r'.manifest == r.manifest && r'.root == r.root
  }

  /** At this step the release was qualified on staging, or adopted, with these artifacts. */
  ghost predicate Vouched(compare: Comparison, s: State, run: seq<Action>, k: nat, tag: Tag, r: Release) {
    && (QualifiedAt(compare, s, run, k, tag) || AdoptedAt(compare, s, run, k, tag))
    && var o := After(compare, s, run[..k]).memory;
    Built(o, tag) && SameArtifacts(o.releases[tag], r)
  }

  lemma VouchedEarlier(compare: Comparison, s: State, run: seq<Action>, a: Action, k: nat, tag: Tag, r: Release)
    requires Vouched(compare, s, run, k, tag, r)
    ensures Vouched(compare, s, run + [a], k, tag, r)
  {
    assert (run + [a])[..k] == run[..k];
  }

  /** A record that is qualified after a step was so before with the same artifacts, unless the step vouched for it. */
  lemma QualificationStep(compare: Comparison, s: State, a: Action, tag: Tag)
    requires Enabled(compare, s, a) && !a.NewRun? && !a.Crash? && Qualified(Apply(compare, s, a).memory, tag)
    requires a != Action.Qualify(tag) && !(a.Adopt? && s.desired.production == tag)
    ensures Qualified(s.memory, tag) && SameArtifacts(s.memory.releases[tag], Apply(compare, s, a).memory.releases[tag])
  {
    if OnRecord(a) && a.tag != tag { assert Apply(compare, s, a).memory.releases[tag] == s.memory.releases[tag]; }
  }

  /** Everything held to be qualified was vouched for with the artifacts it has. */
  ghost predicate AllVouched(compare: Comparison, s: State, run: seq<Action>, o: Observed) {
    forall tag | Qualified(o, tag) :: exists k: nat :: Vouched(compare, s, run, k, tag, o.releases[tag])
  }

  lemma EarlierVouched(compare: Comparison, s: State, before: seq<Action>, a: Action, o: Observed)
    requires AllVouched(compare, s, before, o)
    ensures AllVouched(compare, s, before + [a], o)
  {
    forall tag | Qualified(o, tag) ensures exists k: nat :: Vouched(compare, s, before + [a], k, tag, o.releases[tag]) {
      var k: nat :| Vouched(compare, s, before, k, tag, o.releases[tag]);
      VouchedEarlier(compare, s, before, a, k, tag, o.releases[tag]);
    }
  }

  lemma VouchedNow(compare: Comparison, s: State, before: seq<Action>, a: Action, tag: Tag)
    requires IsRun(compare, s, before) && Enabled(compare, After(compare, s, before), a)
    requires a == Action.Qualify(tag) || (a.Adopt? && After(compare, s, before).desired.production == tag)
    ensures tag in After(compare, s, before).memory.releases
    ensures Vouched(compare, s, before + [a], |before|, tag, After(compare, s, before).memory.releases[tag])
  {
    assert (before + [a])[..|before|] == before;
  }

  lemma MemoryVouched(compare: Comparison, s: State, before: seq<Action>, a: Action, tag: Tag)
    requires IsRun(compare, s, before) && Enabled(compare, After(compare, s, before), a)
    requires !a.NewRun? && !a.Crash? && AllVouched(compare, s, before, After(compare, s, before).memory)
    requires Qualified(Apply(compare, After(compare, s, before), a).memory, tag)
    ensures exists k: nat ::
              Vouched(compare, s, before + [a], k, tag,
                  Apply(compare, After(compare, s, before), a).memory.releases[tag])
  {
    var s1 := After(compare, s, before);
    var r := Apply(compare, s1, a).memory.releases[tag];
    if a == Action.Qualify(tag) || (a.Adopt? && s1.desired.production == tag) {
      VouchedNow(compare, s, before, a, tag);
      assert Vouched(compare, s, before + [a], |before|, tag, r);
    } else {
      QualificationStep(compare, s1, a, tag);
      var k: nat :| Vouched(compare, s, before, k, tag, s1.memory.releases[tag]);
      VouchedEarlier(compare, s, before, a, k, tag, s1.memory.releases[tag]);
      assert Vouched(compare, s, before + [a], k, tag, r);
    }
  }

  lemma {:induction false} QualificationsAreVouched(compare: Comparison, d: Desired, run: seq<Action>)
    requires IsRun(compare, Initial(d), run)
    ensures var s := After(compare, Initial(d), run);
            AllVouched(compare, Initial(d), run, s.memory) && AllVouched(compare, Initial(d), run, s.saved)
  {
    if run != [] {
      var before, a, s0 := run[..|run| - 1], run[|run| - 1], Initial(d);
      assert run == before + [a];
      QualificationsAreVouched(compare, d, before);
      var s1, s2 := After(compare, s0, before), After(compare, s0, run);
      EarlierVouched(compare, s0, before, a, s1.memory);
      EarlierVouched(compare, s0, before, a, s1.saved);
      if !a.NewRun? && !a.Crash? {
        forall tag | Qualified(s2.memory, tag)
          ensures exists k: nat :: Vouched(compare, s0, run, k, tag, s2.memory.releases[tag])
        {
          MemoryVouched(compare, s0, before, a, tag);
        }
      }
    }
  }

  /**
   An activation that makes another release the production one, and is not forced, promotes the very
   commit, product manifest and files that were qualified on staging, or adopted, at some step before:
   over every run, whatever was built, refreshed, removed or forgotten in a crash since.
   */
  lemma PromotionIsCurrent(compare: Comparison, d: Desired, run: seq<Action>)
    requires IsRun(compare, Initial(d), run) && Enabled(compare, After(compare, Initial(d), run), Materialize)
    requires var s := After(compare, Initial(d), run);
             s.memory.production != Some(s.desired.production) && s.force != Some(s.desired.production)
    ensures var s := After(compare, Initial(d), run);
            && Built(s.memory, s.desired.production)
            && exists k: nat ::
                 Vouched(compare, Initial(d), run, k, s.desired.production, s.memory.releases[s.desired.production])
  {
    var s := After(compare, Initial(d), run);
    NeverActivates(compare, s.desired, s.memory, ProductionTags(s.desired));
    QualificationsAreVouched(compare, d, run);
    assert Qualified(s.memory, s.desired.production);
    NoFirstWork(compare, s.desired, s.memory, ProductionTags(s.desired), 0);
  }

  lemma OneElement(tags: set<Tag>, tag: Tag)
    requires tag in tags && |tags| <= 1
    ensures tags == {tag}
  {
    assert |tags - {tag}| == 0;
  }

  // ----- What is on staging is built -----

  /** The staging release of an activation in progress. */
  function PendingStaging(s: State): Option<Tag> {
    if s.pending.Some? && s.pending.value in s.generations then s.generations[s.pending.value].staging else None
  }

  ghost predicate PendingBuilt(s: State) {
    var tag := PendingStaging(s);
    tag.Some? ==> Built(s.memory, tag.value) && tag.value in Tags(s.desired)
  }

  ghost predicate StagedBuilt(s: State) { StagingBuilt(s.memory) && StagingBuilt(s.saved) && PendingBuilt(s) }

  lemma MemoryStaged(compare: Comparison, s: State, a: Action)
    requires Enabled(compare, s, a) && StagedBuilt(s)
    ensures StagingBuilt(Apply(compare, s, a).memory) && StagingBuilt(Apply(compare, s, a).saved)
  {
    if !a.NewRun? && !a.Crash? && s.memory.staging.Some? { BuiltStays(compare, s, a, s.memory.staging.value); }
  }

  lemma PendingStaged(compare: Comparison, s: State, a: Action)
    requires Enabled(compare, s, a) && PendingBuilt(s)
    ensures PendingBuilt(Apply(compare, s, a))
  {
    var s' := Apply(compare, s, a);
    if !a.Materialize? { assert PendingStaging(s').None? || PendingStaging(s') == PendingStaging(s); }
    if !a.NewRun? && !a.Crash? && PendingStaging(s).Some? { BuiltStays(compare, s, a, PendingStaging(s).value); }
  }

  lemma StagedBuiltStep(compare: Comparison, s: State, a: Action)
    requires Enabled(compare, s, a) && StagedBuilt(s)
    ensures StagedBuilt(Apply(compare, s, a))
  {
    MemoryStaged(compare, s, a);
    PendingStaged(compare, s, a);
  }

  /** No step of a run unbuilds a release that is desired or served. */
  lemma BuiltStays(compare: Comparison, s: State, a: Action, tag: Tag)
    requires Enabled(compare, s, a) && Built(s.memory, tag) && !a.NewRun? && !a.Crash?
    requires tag in Tags(s.desired) || Serves(s.memory, tag)
    ensures Built(Apply(compare, s, a).memory, tag)
  {}

  /** In every reachable state the release on staging is built, in memory and as saved. */
  lemma {:induction false} StagedIsBuilt(compare: Comparison, d: Desired, run: seq<Action>)
    requires IsRun(compare, Initial(d), run)
    ensures StagedBuilt(After(compare, Initial(d), run))
  {
    if run != [] {
      StagedIsBuilt(compare, d, run[..|run| - 1]);
      StagedBuiltStep(compare, After(compare, Initial(d), run[..|run| - 1]), run[|run| - 1]);
    }
  }

  /** In every such state an activation that the planner asks for finds everything it needs. */
  lemma ReachableActivationIsReady(compare: Comparison, d: Desired, run: seq<Action>)
    requires IsRun(compare, Initial(d), run)
    requires var s := After(compare, Initial(d), run);
             Assigned(s.desired) && MakePlan(compare, s.desired, s.memory, s.force).action == Some(Activate)
    ensures var s := After(compare, Initial(d), run); ActivationReady(compare, s.desired, s.memory)
  {
    RunInv(compare, Initial(d), run);
    var s := After(compare, Initial(d), run);
    PlannedActivationIsReady(compare, s.desired, s.memory, s.force);
  }

  // ----- Activations that fail, or are interrupted -----

  /** A step that can come between the start of an activation and its end. */
  predicate During(a: Action) { OnRecord(a) || a.SwitchLink? || a.Save? || a.DropGeneration? }

  lemma DuringStep(compare: Comparison, s: State, a: Action)
    requires Enabled(compare, s, a) && During(a)
    ensures var s' := Apply(compare, s, a);
            && s'.pending == s.pending && s'.previous == s.previous
            && s'.link == if a.SwitchLink? then s.pending else s.link
  {}

  lemma {:induction false} DuringActivation(compare: Comparison, s: State, run: seq<Action>)
    requires IsRun(compare, s, [Materialize] + run) && forall i | 0 <= i < |run| :: During(run[i])
    ensures var s' := After(compare, s, [Materialize] + run);
            && s'.pending == Some(s.memory.generation + 1) && s'.previous == s.link
            && s'.link == (if SwitchLink in run then s'.pending else s.link)
  {
    var all := [Materialize] + run;
    if run == [] {
      assert all[..0] == [] && IsRun(compare, s, all[..0]);
    } else {
      var before := run[..|run| - 1];
      assert all[..|all| - 1] == [Materialize] + before && run == before + [run[|run| - 1]];
      DuringActivation(compare, s, before);
      DuringStep(compare, After(compare, s, [Materialize] + before), run[|run| - 1]);
    }
  }

  /**
   An activation that fails leaves the link on what was served before, whether or not it had been switched, unless
   nothing was served before: the link then stays where the failed activation put it.
   */
  lemma FailedActivation(compare: Comparison, s: State, run: seq<Action>)
    requires IsRun(compare, s, [Materialize] + run + [Rollback]) && forall i | 0 <= i < |run| :: During(run[i])
    ensures var s' := After(compare, s, [Materialize] + run + [Rollback]);
            && s'.pending.None?
            && (s'.link == s.link <==> s.link.Some? || SwitchLink !in run)
            && (s'.link != s.link ==> s'.link == Some(s.memory.generation + 1))
  {
    var before := [Materialize] + run;
    assert (before + [Rollback])[..|before|] == before;
    DuringActivation(compare, s, run);
  }

  /** The channels and verdicts after an activation are those that the controller's own activation leaves. */
  lemma ActivationAgrees(compare: Comparison, host: Reconcile.Host, s: State)
    ensures var n := Reconcile.AfterActivate(host, compare, s.desired, s.memory, s.force);
            var o := Serve(s.memory, Next(s.memory), NewMeta(s));
            && n == o.(releases := n.releases, instances := n.instances) && n.releases.Keys == o.releases.Keys
            && forall tag | tag in n.releases :: FeedOnly(o.releases[tag], n.releases[tag])
  {
    var n := Reconcile.AfterActivate(host, compare, s.desired, s.memory, s.force);
    var o := Serve(s.memory, Next(s.memory), NewMeta(s));
    forall tag | tag in n.releases ensures FeedOnly(o.releases[tag], n.releases[tag]) {
      Reconcile.HasChannelIff(s.desired, s.memory, tag);
    }
  }

  /** So are the records that builds, checks, qualifications and an adoption leave. */
  lemma RecordsAgree(compare: Comparison, host: Reconcile.Host, s: State, tag: Tag)
    requires tag in s.memory.releases
    ensures Enabled(compare, s, Build(tag, host.manifest(tag), host.root(tag))) ==>
              Apply(compare, s, Build(tag, host.manifest(tag), host.root(tag))).memory ==
                Reconcile.AfterBuild(host, s.memory, tag)
    ensures Apply(compare, s, Action.CheckDeployment(tag, Passed)).memory == Reconcile.AfterCheck(s.memory, tag)
    ensures Enabled(compare, s, Action.Qualify(tag)) ==>
              Apply(compare, s, Action.Qualify(tag)).memory == Reconcile.AfterQualify(s.memory, tag)
    ensures Reconcile.Adoptable(host, s.desired, s.memory) ==>
              Enabled(compare, s, Adopt)
              && Apply(compare, s, Adopt).memory == Reconcile.Adopt(host, s.desired, s.memory)
  {}

  lemma Taken(compare: Comparison, s: State, run: seq<Action>, a: Action)
    requires IsRun(compare, s, run) && Enabled(compare, After(compare, s, run), a)
    ensures IsRun(compare, s, run + [a]) && After(compare, s, run + [a]) == Apply(compare, After(compare, s, run), a)
  {
    assert (run + [a])[..|run|] == run;
  }

  lemma LinkSwitched(compare: Comparison, s: State)
    requires Enabled(compare, s, Materialize)
    ensures var run, number := [Materialize, SwitchLink], Next(s.memory);
            && IsRun(compare, s, run)
            && var s' := After(compare, s, run);
            && s'.memory == s.memory && s'.saved == s.saved && s'.desired == s.desired
            && s'.pending == Some(number) && s'.link == Some(number)
            && s'.generations == s.generations[number := NewMeta(s)]
  {
    assert [] + [Materialize] == [Materialize] && [Materialize] + [SwitchLink] == [Materialize, SwitchLink];
    Taken(compare, s, [], Materialize);
    Taken(compare, s, [Materialize], SwitchLink);
  }

  lemma CommittedNow(compare: Comparison, s: State)
    requires Enabled(compare, s, Materialize)
    ensures var both := [Materialize, SwitchLink];
            && IsRun(compare, s, both) && IsRun(compare, s, both + [Commit])
            && var o := Serve(s.memory, Next(s.memory), NewMeta(s));
            && var h := After(compare, s, both).history;
            After(compare, s, both + [Commit]) == After(compare, s, both).(memory := o, pending := None,
                history := SeeStaging(h, o))
  {
    LinkSwitched(compare, s);
    Taken(compare, s, [Materialize, SwitchLink], Commit);
  }

  lemma Restarted(compare: Comparison, s: State, run: seq<Action>, force: Option<Tag>)
    requires IsRun(compare, s, run) && (force.None? || force == Some(After(compare, s, run).desired.production))
    ensures var s1 := After(compare, s, run);
            && IsRun(compare, s, run + [Crash] + [NewRun(s1.desired, force)])
            && After(compare, s, run + [Crash] + [NewRun(s1.desired, force)])
                == s1.(memory := s1.saved, force := force, pending := None, previous := None)
  {
    Taken(compare, s, run, Crash);
    Taken(compare, s, run + [Crash], NewRun(After(compare, s, run).desired, force));
  }

  /**
   An activation that was interrupted after the link was switched is completed by the next run with the same
   assignment: it recovers exactly what would have been committed, even without the force it was made with.
   */
  lemma RecoveryCompletes(compare: Comparison, s: State, force: Option<Tag>)
    requires Enabled(compare, s, Materialize) && s.saved == s.memory
    requires force.None? || force == Some(s.desired.production)
    ensures var done := [Materialize, SwitchLink] + [Commit];
            var cut := [Materialize, SwitchLink] + [Crash] + [NewRun(s.desired, force)] + [Recover];
            && IsRun(compare, s, done) && IsRun(compare, s, cut)
            && After(compare, s, cut).memory == After(compare, s, done).memory
            && After(compare, s, cut).link == After(compare, s, done).link
            && After(compare, s, cut).history == After(compare, s, done).history
  {
    var both := [Materialize, SwitchLink];
    LinkSwitched(compare, s);
    CommittedNow(compare, s);
    Restarted(compare, s, both, force);
    Taken(compare, s, both + [Crash] + [NewRun(s.desired, force)], Recover);
  }
}
