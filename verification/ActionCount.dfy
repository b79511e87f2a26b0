/**
 How many actions a reconciliation takes, told from the observations it starts from: the planner of
 tools/release_reconciler.py asks for exactly this many, one less after each action.
 */
module ActionCount {
  import opened Wrappers
  import opened Compatibility
  import opened Releases
  import opened Reconcile
  import opened Convergence

  // ----- What can be foreseen of a release -----

  /** The daemon that the built release will use for itself is up already. */
  predicate Up(host: Host, n: Observed, tag: Tag) {
    if host.requirements(tag).Some? then
      var id := host.instance(tag);
      id in n.instances && n.instances[id].status.Running? && n.instances[id].draining.None?
    else tag in n.releases && n.releases[tag].endpoint.Some? && n.releases[tag].feed.Running?
  }

  /** Production's daemon as it is or will be launched. */
  function ProductionLaunch(host: Host, d: Desired, n: Observed): Instance {
    var id := host.instance(d.production);
    if id in n.instances && !n.instances[id].status.Removed? then n.instances[id] else host.launch(id)
  }

  /** The reason a release will be bound for, once production is up and the release is built. */
  function FinalReason(host: Host, compare: Comparison, d: Desired, n: Observed, tag: Tag): Reason {
    if tag == d.production then DedicatedProduction
    else if d.staging == Some(tag) then DedicatedStaging
    else if tag in d.dedicated then DedicatedPolicy
    else
      var described := host.requirements(d.production).Some?;
      var evidence := host.evidence(host.instance(d.production));
      var decision := compare(host.requirements(tag), if described then Some(evidence) else None);
      if decision.Incompatible? then NotCompatible(decision.why)
      else if described
              && !NamesInstance(evidence, d.production, host.instance(d.production), ProductionLaunch(host, d, n))
      then IdentityDiffers
      else SharedWith(d.production)
  }

  predicate Shares(host: Host, compare: Comparison, d: Desired, n: Observed, tag: Tag) {
    FinalReason(host, compare, d, n, tag).SharedWith?
  }

  function FinalProvider(host: Host, compare: Comparison, d: Desired, n: Observed, tag: Tag): Option<InstanceId> {
    var provider := if Shares(host, compare, d, n, tag) then d.production else tag;
    if host.requirements(provider).Some? then Some(host.instance(provider)) else None
  }

  /** The recorded binding is not the one the release will have. */
  predicate WillRebind(host: Host, compare: Comparison, d: Desired, n: Observed, tag: Tag) {
    var provider := FinalProvider(host, compare, d, n, tag);
    tag !in n.releases
    || (!(provider.None? && n.releases[tag].provider.None?)
        && (n.releases[tag].provider != provider
            || n.releases[tag].reason != Some(FinalReason(host, compare, d, n, tag))))
  }

  // ----- The count -----

  /** A build, and a start of the release's own daemon unless production's will do. */
  function Needs(host: Host, compare: Comparison, d: Desired, n: Observed, tag: Tag): nat {
    (if Built(n, tag) then 0 else 1) + (if Up(host, n, tag) || Shares(host, compare, d, n, tag) then 0 else 1)
  }

  function Needed(host: Host, compare: Comparison, d: Desired, n: Observed, tags: seq<Tag>): nat {
    if tags == [] then 0 else Needs(host, compare, d, n, tags[0]) + Needed(host, compare, d, n, tags[1..])
  }

  /** The deployment is checked, and stays so because no build is due. */
  predicate Checked(n: Observed, tag: Tag) { Built(n, tag) && Deployed(n, tag) }

  function Unchecked(n: Observed, tags: seq<Tag>): nat {
    if tags == [] then 0 else (if Checked(n, tags[0]) then 0 else 1) + Unchecked(n, tags[1..])
  }

  /** The running legacy deployment will be recognized as the desired production. */
  predicate WillAdopt(host: Host, d: Desired, o: Observed) {
    && o.production.None? && o.generation == 0 && d.production in o.releases
    && var r := o.releases[d.production];
    host.legacyCommit == Some(r.commit)
    && (host.requirements(d.production).None? || (r.endpoint.Some? && r.feed.Running?))
  }

  /** The desired production is neither active nor on staging, and is forced or not qualified. */
  predicate WillBlock(host: Host, d: Desired, o: Observed, force: Option<Tag>) {
    && o.production != Some(d.production) && o.staging != Some(d.production) && !WillAdopt(host, d, o)
    && (force == Some(d.production) || !(Built(o, d.production) && Qualified(o, d.production)))
  }

  /** The desired production must be qualified before it may go live. */
  predicate WillQualify(host: Host, d: Desired, n: Observed, force: Option<Tag>) {
    && n.production != Some(d.production) && !WillAdopt(host, d, n) && force != Some(d.production)
    && !(Built(n, d.production) && Qualified(n, d.production))
  }

  /** The production channel will have to be switched. */
  predicate WillSwitch(host: Host, compare: Comparison, d: Desired, n: Observed) {
    || n.production != Some(d.production) || n.dirty || n.generation == 0 || n.sunset != d.sunset
    || exists i | 0 <= i < |ProductionTags(d)| :: WillRebind(host, compare, d, n, ProductionTags(d)[i])
  }

  /** The checks that follow each switch. */
  function ProductionCount(d: Desired): nat { |ProductionTags(d)| }

  /**
   Staging goes live with production's switch if it is ready by then, and needs one verdict after
   that. Otherwise that switch stops its daemon, and it needs a switch of its own.
   */
  function StagingCount(host: Host, compare: Comparison, d: Desired, n: Observed, switched: bool): nat {
    if d.staging.None? then (if !switched && n.staging.Some? then 1 + ProductionCount(d) else 0)
    else
      var s := d.staging.value;
      if switched && Built(n, s) && Up(host, n, s) then 1
      else
        (if Built(n, s) then 0 else 1)
        + (if Up(host, n, s) && (switched ==> host.requirements(s).None?) then 0 else 1)
        + (if switched || n.staging != d.staging || WillRebind(host, compare, d, n, s) then 1 + ProductionCount(d) + 1
           else if Checked(n, s) && Qualified(n, s) then 0 else 1)
  }

  /** What is left after the production channel's releases are built and their daemons up. */
  function RestCount(host: Host, compare: Comparison, d: Desired, n: Observed, force: Option<Tag>): nat {
    var switched := WillSwitch(host, compare, d, n);
    if WillBlock(host, d, n, force) then 0
    else
      (if WillQualify(host, d, n, force) then 1 else 0)
      + (if switched then 1 + ProductionCount(d) else Unchecked(n, ProductionTags(d)))
      + StagingCount(host, compare, d, n, switched)
  }

  /** How many actions there are to do. */
  function ActionsLeft(host: Host, compare: Comparison, d: Desired, n: Observed, force: Option<Tag>): nat {
    Needed(host, compare, d, n, ProductionTags(d)) + RestCount(host, compare, d, n, force)
  }

  // ----- Sums over the production channel -----

  lemma {:induction false} NeededBound(host: Host, compare: Comparison, d: Desired, n: Observed, tags: seq<Tag>)
    ensures Needed(host, compare, d, n, tags) <= 2 * |tags|
  {
    if tags != [] { NeededBound(host, compare, d, n, tags[1..]); }
  }

  lemma {:induction false} UncheckedBound(n: Observed, tags: seq<Tag>)
    ensures Unchecked(n, tags) <= |tags|
  {
    if tags != [] { UncheckedBound(n, tags[1..]); }
  }

  /** At most four actions for each release on the production channel, and six. */
  lemma CountBound(host: Host, compare: Comparison, d: Desired, n: Observed, force: Option<Tag>)
    ensures ActionsLeft(host, compare, d, n, force) <= 4 * ProductionCount(d) + 6
  {
    NeededBound(host, compare, d, n, ProductionTags(d));
    UncheckedBound(n, ProductionTags(d));
  }

  /** One less than that: a production release that is to be qualified on staging has been built. */
  lemma ServedCountBound(host: Host, compare: Comparison, d: Desired, n: Observed, force: Option<Tag>)
    requires StagingBuilt(n)
    ensures ActionsLeft(host, compare, d, n, force) <= 4 * ProductionCount(d) + 5
  {
    var tags := ProductionTags(d);
    assert tags[1..] == d.sunset;
    NeededBound(host, compare, d, n, tags[1..]);
    UncheckedBound(n, tags);
  }

  ghost predicate Distinct(tags: seq<Tag>) { forall i, j | 0 <= i < j < |tags| :: tags[i] != tags[j] }

  lemma ProductionTagsDistinct(d: Desired)
    requires Assigned(d)
    ensures Distinct(ProductionTags(d))
  {
    var tags := ProductionTags(d);
    forall i, j | 0 <= i < j < |tags| ensures tags[i] != tags[j] {
      assert tags[j] == d.sunset[j - 1];
      if i > 0 { assert tags[i] == d.sunset[i - 1]; }
    }
  }

  /** The release needs as much as before. */
  ghost predicate SameNeed(host: Host, compare: Comparison, d: Desired, n: Observed, n': Observed, tag: Tag) {
    Needs(host, compare, d, n', tag) == Needs(host, compare, d, n, tag)
  }

  lemma {:induction false} NeededSame(host: Host, compare: Comparison, d: Desired, n: Observed, n': Observed,
                                      tags: seq<Tag>)
    requires forall u | u in tags :: SameNeed(host, compare, d, n, n', u)
    ensures Needed(host, compare, d, n', tags) == Needed(host, compare, d, n, tags)
  {
    if tags != [] {
      assert SameNeed(host, compare, d, n, n', tags[0]);
      NeededSame(host, compare, d, n, n', tags[1..]);
    }
  }

  lemma {:induction false} NeededDrops(host: Host, compare: Comparison, d: Desired, n: Observed, n': Observed,
                                       tags: seq<Tag>, tag: Tag)
    requires Distinct(tags) && tag in tags && Needs(host, compare, d, n, tag) == Needs(host, compare, d, n', tag) + 1
    requires forall u | u in tags && u != tag :: SameNeed(host, compare, d, n, n', u)
    ensures Needed(host, compare, d, n, tags) == Needed(host, compare, d, n', tags) + 1
  {
    if tags[0] == tag {
      forall u | u in tags[1..] ensures SameNeed(host, compare, d, n, n', u) { assert u in tags && u != tag; }
      NeededSame(host, compare, d, n, n', tags[1..]);
    } else {
      assert SameNeed(host, compare, d, n, n', tags[0]);
      NeededDrops(host, compare, d, n, n', tags[1..], tag);
    }
  }

  lemma {:induction false} UncheckedSame(n: Observed, n': Observed, tags: seq<Tag>)
    requires forall u | u in tags :: Checked(n', u) == Checked(n, u)
    ensures Unchecked(n', tags) == Unchecked(n, tags)
  {
    if tags != [] {
      assert tags[0] in tags;
      UncheckedSame(n, n', tags[1..]);
    }
  }

  lemma {:induction false} UncheckedDrops(n: Observed, n': Observed, tags: seq<Tag>, tag: Tag)
    requires Distinct(tags) && tag in tags && !Checked(n, tag) && Checked(n', tag)
    requires forall u | u in tags && u != tag :: Checked(n', u) == Checked(n, u)
    ensures Unchecked(n, tags) == Unchecked(n', tags) + 1
  {
    if tags[0] == tag {
      forall u | u in tags[1..] ensures Checked(n', u) == Checked(n, u) { assert u in tags && u != tag; }
      UncheckedSame(n, n', tags[1..]);
    } else {
      assert Checked(n', tags[0]) == Checked(n, tags[0]);
      UncheckedDrops(n, n', tags[1..], tag);
    }
  }

  lemma {:induction false} AllUnchecked(n: Observed, tags: seq<Tag>)
    requires forall u | u in tags :: !Checked(n, u)
    ensures Unchecked(n, tags) == |tags|
  {
    if tags != [] {
      assert tags[0] in tags;
      AllUnchecked(n, tags[1..]);
    }
  }

  // ----- What the count looks at -----

  ghost predicate SameSight(host: Host, n: Observed, n': Observed, tag: Tag) {
    && tag in n.releases && tag in n'.releases && Built(n', tag) == Built(n, tag)
    && Up(host, n', tag) == Up(host, n, tag)
    && Deployed(n', tag) == Deployed(n, tag) && Qualified(n', tag) == Qualified(n, tag) && SameRecorded(n, n', tag)
  }

  ghost predicate SameRecorded(n: Observed, n': Observed, tag: Tag)
    requires tag in n.releases && tag in n'.releases
  {
    n'.releases[tag].provider == n.releases[tag].provider && n'.releases[tag].reason == n.releases[tag].reason
  }

  ghost predicate SameLaunch(host: Host, d: Desired, n: Observed, n': Observed) {
    var i, i' := ProductionLaunch(host, d, n), ProductionLaunch(host, d, n');
    i'.manifest == i.manifest && i'.manifestSha == i.manifestSha
  }

  lemma ReasonKept(host: Host, compare: Comparison, d: Desired, n: Observed, n': Observed, tag: Tag)
    requires SameLaunch(host, d, n, n')
    ensures FinalReason(host, compare, d, n', tag) == FinalReason(host, compare, d, n, tag)
    ensures FinalProvider(host, compare, d, n', tag) == FinalProvider(host, compare, d, n, tag)
  {}

  lemma RebindKept(host: Host, compare: Comparison, d: Desired, n: Observed, n': Observed, tag: Tag)
    requires SameLaunch(host, d, n, n') && tag in n.releases && tag in n'.releases && SameRecorded(n, n', tag)
    ensures WillRebind(host, compare, d, n', tag) == WillRebind(host, compare, d, n, tag)
  {
    ReasonKept(host, compare, d, n, n', tag);
  }

  lemma SightKeeps(host: Host, compare: Comparison, d: Desired, n: Observed, n': Observed, tag: Tag)
    requires SameLaunch(host, d, n, n') && SameSight(host, n, n', tag)
    ensures SameNeed(host, compare, d, n, n', tag) && Checked(n', tag) == Checked(n, tag)
    ensures WillRebind(host, compare, d, n', tag) == WillRebind(host, compare, d, n, tag)
  {
    ReasonKept(host, compare, d, n, n', tag);
  }

  // ----- What refreshing, building, starting and verdicts do to it -----

  ghost predicate AllProbed(host: Host,
                            o: Observed) { forall id | id in o.instances :: Probed(host, id, o.instances[id]) }

  lemma RefreshUp(host: Host, d: Desired, o: Observed, tag: Tag)
    requires Sane(host) && AllProbed(host, o)
    ensures Up(host, Refresh(host, d, o), tag) == Up(host, o, tag)
  {
    var n, id := Refresh(host, d, o), host.instance(tag);
    if host.requirements(tag).Some? {
      assert id in n.instances ==> n.instances[id] == RefreshInstance(host, d, o, id);
      assert id in o.instances ==> id in n.instances && Probed(host, id, o.instances[id]);
    }
  }

  lemma RefreshLaunch(host: Host, d: Desired, o: Observed)
    requires Sane(host) && AllProbed(host, o)
    ensures SameLaunch(host, d, o, Refresh(host, d, o))
  {
    var n, id := Refresh(host, d, o), host.instance(d.production);
    assert id in n.instances ==> n.instances[id] == RefreshInstance(host, d, o, id);
    assert id in o.instances ==> id in n.instances && Probed(host, id, o.instances[id]);
  }

  lemma AdoptUp(host: Host, d: Desired, o: Observed, tag: Tag)
    ensures Up(host, Adopt(host, d, o), tag) == Up(host, o, tag)
    ensures SameLaunch(host, d, o, Adopt(host, d, o))
  {}

  lemma SightOf(host: Host, n: Observed, n': Observed, tag: Tag)
    requires SameFor(n, n', tag) && Up(host, n', tag) == Up(host, n, tag)
    ensures SameSight(host, n, n', tag)
  {}

  lemma BuildUp(host: Host, d: Desired, n: Observed, tag: Tag, u: Tag)
    requires Sane(host) && tag in n.releases && AllProbed(host, n)
    ensures var n' := Normalize(host, d, AfterBuild(host, n, tag));
            Up(host, n', u) == Up(host, n, u) && SameLaunch(host, d, n, n')
  {
    var n1 := AfterBuild(host, n, tag);
    AdoptUp(host, d, n1, u);
    assert Up(host, n1, u) == Up(host, n, u);
    RefreshUp(host, d, Adopt(host, d, n1), u);
    RefreshLaunch(host, d, Adopt(host, d, n1));
  }

  /** A build changes nothing the count looks at but the release being built and its verdicts. */
  lemma BuildSight(host: Host, d: Desired, n: Observed, tag: Tag, n': Observed)
    requires Good(host, d, n) && tag in Tags(d) && n' == Normalize(host, d, AfterBuild(host, n, tag))
    ensures SameLaunch(host, d, n, n') && tag in n'.releases && Built(n', tag) && !Deployed(n', tag)
    ensures Up(host, n', tag) == Up(host, n, tag) && SameRecorded(n, n', tag)
    ensures forall u | u in Tags(d) && u != tag :: SameSight(host, n, n', u)
  {
    assert tag in n.releases && AllProbed(host, n);
    BuildUp(host, d, n, tag, tag);
    BuildOwn(host, d, n, tag);
    forall u | u in Tags(d) && u != tag ensures SameSight(host, n, n', u) {
      BuildLeaves(host, d, n, tag, u);
      BuildUp(host, d, n, tag, u);
      SightOf(host, n, n', u);
    }
  }

  ghost predicate SameOwn(n: Observed, n': Observed, tag: Tag) {
    && tag in n.releases && tag in n'.releases && SameRecorded(n, n', tag)
    && n'.releases[tag].build == n.releases[tag].build && n'.releases[tag].deployment == n.releases[tag].deployment
  }

  ghost predicate SameVerdict(d: Desired, n: Observed, n': Observed, tag: Tag) {
    tag != d.production ==> Qualified(n', tag) == Qualified(n, tag)
  }

  lemma AdoptKeepsOwn(host: Host, d: Desired, o: Observed, tag: Tag)
    requires tag in o.releases
    ensures SameOwn(o, Adopt(host, d, o), tag) && SameVerdict(d, o, Adopt(host, d, o), tag)
  {}

  lemma RefreshKeepsOwn(host: Host, d: Desired, o: Observed, tag: Tag)
    requires tag in o.releases
    ensures SameOwn(o, Refresh(host, d, o), tag) && SameVerdict(d, o, Refresh(host, d, o), tag)
  {
    assert Refresh(host, d, o).releases[tag] == RefreshRelease(host, d, o, tag);
  }

  /** Adoption and refresh keep a release's build, its checks and its recorded binding. */
  lemma NormalizeOwn(host: Host, d: Desired, o: Observed, tag: Tag)
    requires tag in o.releases
    ensures SameOwn(o, Normalize(host, d, o), tag) && SameVerdict(d, o, Normalize(host, d, o), tag)
  {
    AdoptKeepsOwn(host, d, o, tag);
    RefreshKeepsOwn(host, d, Adopt(host, d, o), tag);
  }

  lemma BuildOwn(host: Host, d: Desired, n: Observed, tag: Tag)
    requires tag in n.releases
    ensures var n' := Normalize(host, d, AfterBuild(host, n, tag));
            tag in n'.releases && Built(n', tag) && !Deployed(n', tag) && SameRecorded(n, n', tag)
  {
    NormalizeOwn(host, d, AfterBuild(host, n, tag), tag);
  }

  lemma Injective(host: Host, tag: Tag, u: Tag)
    requires Sane(host) && host.instance(tag) == host.instance(u)
    ensures tag == u
  {
    assert host.launch(host.instance(tag)).tag == tag && host.launch(host.instance(u)).tag == u;
  }

  lemma StartUp(host: Host, n: Observed, tag: Tag, u: Tag)
    requires tag in n.releases && u in n.releases && Described(host, n, tag)
    requires host.instance(tag) == host.instance(u) ==> tag == u
    ensures Up(host, AfterStart(host, n, tag), u) == (Up(host, n, u) || u == tag)
  {}

  lemma StartLaunch(host: Host, d: Desired, n: Observed, tag: Tag)
    requires tag in n.releases && Described(host, n, tag)
    ensures SameLaunch(host, d, n, AfterStart(host, n, tag))
  {}

  lemma StartOwn(host: Host, n: Observed, tag: Tag)
    requires tag in n.releases
    ensures var n' := AfterStart(host, n, tag);
            && tag in n'.releases && Built(n', tag) == Built(n, tag) && SameRecorded(n, n', tag)
            && Deployed(n', tag) == Deployed(n, tag) && Qualified(n', tag) == Qualified(n, tag)
  {}

  lemma StartSight(host: Host, d: Desired, n: Observed, tag: Tag, n': Observed)
    requires Good(host, d, n) && tag in Tags(d) && Built(n, tag) && n' == Normalize(host, d, AfterStart(host, n, tag))
    ensures SameLaunch(host, d, n, n') && tag in n'.releases && Built(n', tag) && Up(host, n', tag)
    ensures SameRecorded(n, n', tag) && Deployed(n', tag) == Deployed(n, tag)
    ensures tag != d.production ==> Qualified(n', tag) == Qualified(n, tag)
    ensures forall u | u in Tags(d) && u != tag :: SameSight(host, n, n', u)
  {
    var n1 := AfterStart(host, n, tag);
    assert n' == Adopt(host, d, n1) by {
      StartStaysRefreshed(host, d, n, tag);
      AdoptStaysRefreshed(host, d, n1);
    }
    assert tag in n.releases && Described(host, n, tag);
    StartLaunch(host, d, n, tag);
    StartUp(host, n, tag, tag);
    StartOwn(host, n, tag);
    NormalizeOwn(host, d, n1, tag);
    AdoptUp(host, d, n1, tag);
    forall u | u in Tags(d) && u != tag ensures SameSight(host, n, n', u) {
      StartLeaves(host, d, n, tag, u);
      if host.instance(tag) == host.instance(u) { Injective(host, tag, u); }
      StartUp(host, n, tag, u);
      AdoptUp(host, d, n1, u);
      SightOf(host, n, n', u);
    }
  }

  /** A verdict changes nothing else. */
  lemma VerdictSight(host: Host, d: Desired, n: Observed, r: Release, tag: Tag, n': Observed)
    requires tag in n.releases && r == n.releases[tag].(qualification := r.qualification, deployment := r.deployment)
    requires n' == n.(releases := n.releases[tag := r])
    ensures SameLaunch(host, d, n, n') && Built(n', tag) == Built(n, tag) && Up(host, n', tag) == Up(host, n, tag)
    ensures SameRecorded(n, n', tag)
    ensures forall u | u in n.releases && u != tag :: SameSight(host, n, n', u)
  {}

  // ----- The planner sees what was foreseen -----

  lemma ReadyIsUp(host: Host, n: Observed, tag: Tag)
    requires tag in n.releases && OwnInstance(host, n, tag) && Described(host, n, tag)
    ensures Ready(n, tag) == Up(host, n, tag)
  {}

  lemma BuiltIsDescribed(host: Host, d: Desired, n: Observed, tag: Tag)
    requires Good(host, d, n) && tag in Tags(d)
    ensures tag in n.releases && OwnInstance(host, n, tag) && (Built(n, tag) ==> Described(host, n, tag))
    ensures Built(n, tag) ==> Ready(n, tag) == Up(host, n, tag)
  {
    assert OwnInstance(host, n, tag);
    if Built(n, tag) {
      assert Described(host, n, tag);
      ReadyIsUp(host, n, tag);
    }
  }

  /** Production is built and its daemon up, so sharing can be decided. */
  predicate ProductionUp(n: Observed, d: Desired) { Built(n, d.production) && Ready(n, d.production) }

  lemma SunsetForeseen(host: Host, compare: Comparison, d: Desired, n: Observed, tag: Tag)
    requires tag in n.releases && d.production in n.releases && Described(host, n, tag)
    requires Described(host, n, d.production)
    requires Ready(n, d.production) && AllProbed(host, n) && tag != d.production && d.staging != Some(tag)
    ensures ReasonFor(compare, d, n, tag) == FinalReason(host, compare, d, n, tag)
  {
    if host.requirements(d.production).Some? {
      assert Probed(host, host.instance(d.production), n.instances[host.instance(d.production)]);
    }
  }

  lemma ReasonForeseen(host: Host, compare: Comparison, d: Desired, n: Observed, tag: Tag)
    requires Good(host, d, n) && ProductionUp(n, d) && tag in Tags(d) && Built(n, tag)
    ensures ReasonFor(compare, d, n, tag) == FinalReason(host, compare, d, n, tag)
  {
    BuiltIsDescribed(host, d, n, tag);
    BuiltIsDescribed(host, d, n, d.production);
    if tag != d.production && d.staging != Some(tag) { SunsetForeseen(host, compare, d, n, tag); }
  }

  lemma BindingForeseen(host: Host, compare: Comparison, d: Desired, n: Observed, tag: Tag)
    requires Good(host, d, n) && ProductionUp(n, d) && tag in Tags(d) && Built(n, tag)
    ensures BindingChanged(compare, d, n, tag) == WillRebind(host, compare, d, n, tag)
    ensures ProviderTag(compare, d, n, tag) == if Shares(host, compare, d, n, tag) then d.production else tag
  {
    ReasonForeseen(host, compare, d, n, tag);
    BuiltIsDescribed(host, d, n, tag);
    BuiltIsDescribed(host, d, n, d.production);
  }

  lemma {:induction false} FirstNeed(host: Host, compare: Comparison, d: Desired, n: Observed,
                                     tags: seq<Tag>) returns (tag: Tag)
    requires Good(host, d, n) && ProductionUp(n, d) && forall u | u in tags :: u in Tags(d)
    ensures FirstWork(compare, d, n, tags).None? <==> Needed(host, compare, d, n, tags) == 0
    ensures FirstWork(compare, d, n, tags).Some? ==>
              tag in tags && NeedsThis(host, compare, d, n, FirstWork(compare, d, n, tags).value, tag)
  {
    tag := d.production;
    if tags != [] {
      var t := tags[0];
      assert t in Tags(d);
      BuiltIsDescribed(host, d, n, t);
      BuiltIsDescribed(host, d, n, d.production);
      if Built(n, t) { BindingForeseen(host, compare, d, n, t); }
      if Needs(host, compare, d, n, t) == 0 { tag := FirstNeed(host, compare, d, n, tags[1..]); } else { tag := t; }
    }
  }

  /** The action is a build or a start that the release needs. */
  ghost predicate NeedsThis(host: Host, compare: Comparison, d: Desired, n: Observed, a: Action, tag: Tag) {
    if Built(n, tag) then a == StartFeeds(tag) && !Up(host, n, tag) && !Shares(host, compare, d, n, tag)
    else a == BuildRelease(tag)
  }

  predicate WorkDone(compare: Comparison, d: Desired, n: Observed) { FirstWork(compare, d, n, ProductionTags(d)).None? }

  lemma WorkForeseen(host: Host, compare: Comparison, d: Desired, n: Observed) returns (tag: Tag)
    requires Good(host, d, n)
    ensures WorkDone(compare, d, n) <==> Needed(host, compare, d, n, ProductionTags(d)) == 0
    ensures WorkDone(compare, d, n) ==> ProductionUp(n, d)
    ensures !WorkDone(compare, d, n) ==>
              tag in ProductionTags(d)
              && NeedsThis(host, compare, d, n, FirstWork(compare, d, n, ProductionTags(d)).value, tag)
  {
    tag := d.production;
    BuiltIsDescribed(host, d, n, tag);
    if ProductionUp(n, d) {
      forall u | u in ProductionTags(d) ensures u in Tags(d) { ProductionTagIn(d, u); }
      tag := FirstNeed(host, compare, d, n, ProductionTags(d));
    } else {
      assert ProductionTags(d)[0] == tag;
    }
  }

  lemma ProductionTagIn(d: Desired, tag: Tag)
    requires tag in ProductionTags(d)
    ensures tag in Tags(d) && (Assigned(d) ==> d.staging != Some(tag)) && (tag == d.production || tag in d.sunset)
  {
    var i :| 0 <= i < |ProductionTags(d)| && ProductionTags(d)[i] == tag;
    ProductionTagsAre(d, i);
  }

  lemma ProductionTagIs(d: Desired, tag: Tag)
    requires tag in Tags(d) && d.staging != Some(tag)
    ensures tag in ProductionTags(d)
  {
    if tag == d.production {
      assert ProductionTags(d)[0] == tag;
    } else {
      var j :| 0 <= j < |d.sunset| && d.sunset[j] == tag;
      assert ProductionTags(d)[j + 1] == tag;
    }
  }

  /** The channels need a switch exactly if one was foreseen. */
  lemma SwitchForeseen(host: Host, compare: Comparison, d: Desired, n: Observed)
    requires Good(host, d, n) && WorkDone(compare, d, n) && n.production == Some(d.production)
    ensures ChannelsStale(compare, d, n) == WillSwitch(host, compare, d, n)
  {
    var t := WorkForeseen(host, compare, d, n);
    forall i | 0 <= i < |ProductionTags(d)|
      ensures BindingChanged(compare, d, n, ProductionTags(d)[i])
                == WillRebind(host, compare, d, n, ProductionTags(d)[i])
    {
      ProductionTagsAre(d, i);
      NoFirstWork(compare, d, n, ProductionTags(d), i);
      BindingForeseen(host, compare, d, n, ProductionTags(d)[i]);
    }
  }

  // ----- Builds and starts change no prospect -----

  /** Whether the run will block and whether production must be qualified first. */
  ghost predicate SameProspects(host: Host, d: Desired, o: Observed, o': Observed, force: Option<Tag>) {
    && WillBlock(host, d, o', force) == WillBlock(host, d, o, force)
    && WillQualify(host, d, o', force) == WillQualify(host, d, o, force)
  }

  lemma NormalizeProspects(host: Host, d: Desired, o: Observed, force: Option<Tag>)
    ensures SameProspects(host, d, o, Normalize(host, d, o), force)
  {
    RefreshFrame(host, d, Adopt(host, d, o));
  }

  /** Only adoption changes channels before planning, and only from none. */
  lemma NormalizeChannels(host: Host, d: Desired, o: Observed)
    ensures var n := Normalize(host, d, o);
            && n.staging == o.staging
            && (SameChannels(o, n) || (o.production.None? && n.production == Some(d.production) && n.generation == 0))
  {
    RefreshFrame(host, d, Adopt(host, d, o));
  }

  lemma BuildProspects(host: Host, d: Desired, n: Observed, force: Option<Tag>, tag: Tag)
    requires tag in n.releases && !Built(n, tag)
    ensures SameProspects(host, d, n, AfterBuild(host, n, tag), force) && SameChannels(n, AfterBuild(host, n, tag))
  {}

  lemma StartProspects(host: Host, d: Desired, n: Observed, force: Option<Tag>, tag: Tag)
    requires tag in n.releases && Described(host, n, tag)
    ensures SameProspects(host, d, n, AfterStart(host, n, tag), force) && SameChannels(n, AfterStart(host, n, tag))
  {}

  lemma SwitchKept(host: Host, compare: Comparison, d: Desired, n: Observed, n': Observed)
    requires SameLaunch(host, d, n, n')
    requires forall u | u in ProductionTags(d) :: u in n.releases && u in n'.releases && SameRecorded(n, n', u)
    requires SameChannels(n, n') || (n.production.None? && n'.production == Some(d.production) && n'.generation == 0)
    ensures WillSwitch(host, compare, d, n') == WillSwitch(host, compare, d, n)
  {
    forall i | 0 <= i < |ProductionTags(d)|
      ensures WillRebind(host, compare, d, n', ProductionTags(d)[i])
                == WillRebind(host, compare, d, n, ProductionTags(d)[i])
    {
      assert ProductionTags(d)[i] in ProductionTags(d);
      RebindKept(host, compare, d, n, n', ProductionTags(d)[i]);
    }
  }

  lemma StagingKept(host: Host, compare: Comparison, d: Desired, n: Observed, n': Observed, switched: bool)
    requires SameLaunch(host, d, n, n') && n'.staging == n.staging
    requires d.staging.Some? ==> SameSight(host, n, n', d.staging.value)
    ensures StagingCount(host, compare, d, n', switched) == StagingCount(host, compare, d, n, switched)
  {
    if d.staging.Some? { SightKeeps(host, compare, d, n, n', d.staging.value); }
  }

  /** Production work done leaves what comes after it as it was. */
  lemma RestKept(host: Host, compare: Comparison, d: Desired, n: Observed, n': Observed, force: Option<Tag>, tag: Tag)
    requires Assigned(d) && tag in ProductionTags(d) && SameLaunch(host, d, n, n') && n'.staging == n.staging
    requires tag in n.releases && tag in n'.releases && SameRecorded(n, n', tag) && Checked(n', tag) == Checked(n, tag)
    requires forall u | u in Tags(d) && u != tag :: SameSight(host, n, n', u)
    requires SameProspects(host, d, n, n', force)
    requires SameChannels(n, n') || (n.production.None? && n'.production == Some(d.production) && n'.generation == 0)
    ensures RestCount(host, compare, d, n', force) == RestCount(host, compare, d, n, force)
  {
    ProductionTagIn(d, tag);
    forall u | u in ProductionTags(d)
      ensures u in n.releases && u in n'.releases && SameRecorded(n, n', u) && Checked(n', u) == Checked(n, u)
    {
      ProductionTagIn(d, u);
      assert u == tag || SameSight(host, n, n', u);
    }
    SwitchKept(host, compare, d, n, n');
    UncheckedSame(n, n', ProductionTags(d));
    if d.staging.Some? { assert SameSight(host, n, n', d.staging.value); }
    StagingKept(host, compare, d, n, n', WillSwitch(host, compare, d, n));
  }

  lemma NeedKept(host: Host, compare: Comparison, d: Desired, n: Observed, n': Observed, tag: Tag)
    requires Assigned(d) && tag in ProductionTags(d) && SameLaunch(host, d, n, n')
    requires forall u | u in Tags(d) && u != tag :: SameSight(host, n, n', u)
    requires Needs(host, compare, d, n, tag) == Needs(host, compare, d, n', tag) + 1
    ensures Needed(host, compare, d, n, ProductionTags(d)) == Needed(host, compare, d, n', ProductionTags(d)) + 1
  {
    ProductionTagsDistinct(d);
    forall u | u in ProductionTags(d) && u != tag ensures SameNeed(host, compare, d, n, n', u) {
      ProductionTagIn(d, u);
      SightKeeps(host, compare, d, n, n', u);
    }
    NeededDrops(host, compare, d, n, n', ProductionTags(d), tag);
  }

  ghost predicate OneLess(host: Host, compare: Comparison, d: Desired, n: Observed, n': Observed, force: Option<Tag>) {
    ActionsLeft(host, compare, d, n, force) == ActionsLeft(host, compare, d, n', force) + 1
  }

  lemma BuildCounts(host: Host, compare: Comparison, d: Desired, n: Observed, force: Option<Tag>, tag: Tag,
                    n': Observed)
    requires Good(host, d, n) && tag in ProductionTags(d) && !Built(n, tag)
    requires n' == Normalize(host, d, AfterBuild(host, n, tag))
    ensures OneLess(host, compare, d, n, n', force)
  {
    ProductionTagIn(d, tag);
    BuildSight(host, d, n, tag, n');
    ReasonKept(host, compare, d, n, n', tag);
    assert SameProspects(host, d, n, n', force) by {
      BuildProspects(host, d, n, force, tag);
      NormalizeProspects(host, d, AfterBuild(host, n, tag), force);
    }
    NormalizeChannels(host, d, AfterBuild(host, n, tag));
    NeedKept(host, compare, d, n, n', tag);
    RestKept(host, compare, d, n, n', force, tag);
  }

  lemma StartCounts(host: Host, compare: Comparison, d: Desired, n: Observed, force: Option<Tag>, tag: Tag,
                    n': Observed)
    requires Good(host, d, n) && tag in ProductionTags(d) && Built(n, tag) && !Up(host, n, tag)
    requires !Shares(host, compare, d, n, tag)
    requires n' == Normalize(host, d, AfterStart(host, n, tag))
    ensures OneLess(host, compare, d, n, n', force)
  {
    ProductionTagIn(d, tag);
    StartSight(host, d, n, tag, n');
    ReasonKept(host, compare, d, n, n', tag);
    assert SameProspects(host, d, n, n', force) && SameChannels(n, AfterStart(host, n, tag)) by {
      BuiltIsDescribed(host, d, n, tag);
      StartProspects(host, d, n, force, tag);
      NormalizeProspects(host, d, AfterStart(host, n, tag), force);
    }
    NormalizeChannels(host, d, AfterStart(host, n, tag));
    NeedKept(host, compare, d, n, n', tag);
    RestKept(host, compare, d, n, n', force, tag);
  }

  // ----- Switches -----

  /** The serving channels are as desired, up to checks and staging. */
  predicate Late(compare: Comparison, d: Desired, n: Observed) {
    WorkDone(compare, d, n) && n.production == Some(d.production) && !ChannelsStale(compare, d, n)
  }

  /** An adoption that could still come would have come already. */
  lemma NoAdoptionLeft(host: Host, d: Desired, n: Observed)
    requires Good(host, d, n) && ProductionUp(n, d)
    ensures !WillAdopt(host, d, n)
  {
    BuiltIsDescribed(host, d, n, d.production);
  }

  /** What is left once the production channel's work is done. */
  lemma DoneCount(host: Host, compare: Comparison, d: Desired, n: Observed, force: Option<Tag>)
    requires Good(host, d, n) && WorkDone(compare, d, n)
    ensures ActionsLeft(host, compare, d, n, force) == RestCount(host, compare, d, n, force)
    ensures ProductionUp(n, d) && !WillAdopt(host, d, n)
    ensures n.production == Some(d.production) ==> WillSwitch(host, compare, d, n) == ChannelsStale(compare, d, n)
  {
    var t := WorkForeseen(host, compare, d, n);
    NoAdoptionLeft(host, d, n);
    if n.production == Some(d.production) { SwitchForeseen(host, compare, d, n); }
  }

  lemma LateCount(host: Host, compare: Comparison, d: Desired, n: Observed, force: Option<Tag>)
    requires Good(host, d, n) && Late(compare, d, n)
    ensures !WillSwitch(host, compare, d, n) && ProductionUp(n, d)
    ensures ActionsLeft(host, compare, d, n, force)
         == Unchecked(n, ProductionTags(d)) + StagingCount(host, compare, d, n, false)
  {
    DoneCount(host, compare, d, n, force);
  }

  lemma {:induction false} NoWorkLeft(compare: Comparison, d: Desired, n: Observed, tags: seq<Tag>)
    requires forall u | u in tags :: Built(n, u) && Ready(n, ProviderTag(compare, d, n, u))
    ensures FirstWork(compare, d, n, tags).None?
  {
    if tags != [] {
      assert tags[0] in tags;
      NoWorkLeft(compare, d, n, tags[1..]);
    }
  }

  /** The release is served by a ready provider and recorded so. */
  ghost predicate Bound(compare: Comparison, d: Desired, n: Observed, tag: Tag) {
    Built(n, tag) && Ready(n, ProviderTag(compare, d, n, tag)) && !BindingChanged(compare, d, n, tag)
  }

  lemma BoundIsLate(compare: Comparison, d: Desired, n: Observed)
    requires n.production == Some(d.production) && n.sunset == d.sunset && n.generation > 0 && !n.dirty
    requires forall u | u in ProductionTags(d) :: Bound(compare, d, n, u)
    ensures Late(compare, d, n)
  {
    NoWorkLeft(compare, d, n, ProductionTags(d));
    forall i | 0 <= i < |ProductionTags(d)| ensures !BindingChanged(compare, d, n, ProductionTags(d)[i]) {
      assert Bound(compare, d, n, ProductionTags(d)[i]);
    }
  }

  lemma SwitchedTag(host: Host, compare: Comparison, d: Desired, n: Observed, force: Option<Tag>, tag: Tag)
    requires Assigned(d) && WorkDone(compare, d, n) && tag in ProductionTags(d)
    ensures var n1 := AfterActivate(host, compare, d, n, force); Bound(compare, d, n1, tag) && !Checked(n1, tag)
  {
    ProductionTagIn(d, tag);
    ServedIsBound(host, compare, d, n, force, tag);
    ServedIsReady(compare, d, n, tag);
    ActivationRecordsBinding(host, compare, d, n, force, tag);
  }

  lemma SwitchedIsLate(host: Host, compare: Comparison, d: Desired, n: Observed, force: Option<Tag>)
    requires Assigned(d) && WorkDone(compare, d, n)
    ensures var n1 := AfterActivate(host, compare, d, n, force);
            Late(compare, d, n1) && Unchecked(n1, ProductionTags(d)) == ProductionCount(d)
  {
    var n1 := AfterActivate(host, compare, d, n, force);
    forall u | u in ProductionTags(d) ensures Bound(compare, d, n1, u) && !Checked(n1, u) {
      SwitchedTag(host, compare, d, n, force, u);
    }
    assert n1.production == Some(d.production) && n1.sunset == d.sunset && n1.generation > 0 && !n1.dirty;
    BoundIsLate(compare, d, n1);
    AllUnchecked(n1, ProductionTags(d));
  }

  lemma ProviderIsServed(compare: Comparison, d: Desired, n: Observed, tag: Tag)
    requires Assigned(d) && tag in Tags(Serving(d, n)) && ReadyStaging(d, n).None?
    ensures var p := ProviderTag(compare, Serving(d, n), n, tag); p in Tags(d) && d.staging != Some(p)
  {}

  /** A daemon that no served release uses is no provider. */
  lemma StagingIsNoProvider(host: Host, compare: Comparison, d: Desired, n: Observed, tag: Tag)
    requires Good(host, d, n) && d.staging == Some(tag) && ReadyStaging(d, n).None? && host.instance(tag) in n.instances
    ensures host.instance(tag) !in ProviderIds(Resolve(compare, Serving(d, n), n))
  {
    var bindings, id := Resolve(compare, Serving(d, n), n), host.instance(tag);
    assert n.instances[id].tag == tag by { assert OwnInstance(host, n, tag); }
    forall t | t in bindings && bindings[t].provider.Some? ensures bindings[t].provider.value != id {
      ProviderIsServed(compare, d, n, t);
      var p := ProviderTag(compare, Serving(d, n), n, t);
      assert OwnInstance(host, n, p);
      assert bindings[t].provider == n.releases[p].instance;
    }
  }

  lemma StopsDaemon(host: Host, d: Desired, o: Observed, bindings: map<Tag, Binding>, id: InstanceId)
    requires id in o.instances && id !in ProviderIds(bindings)
    ensures !ActivateInstance(host, d, o, bindings, id).status.Running?
  {}

  lemma StagingStops(host: Host, compare: Comparison, d: Desired, n: Observed, force: Option<Tag>, tag: Tag)
    requires Good(host, d, n) && d.staging == Some(tag) && ReadyStaging(d, n).None?
    ensures var n1 := AfterActivate(host, compare, d, n, force);
            Up(host, n1, tag) == (Up(host, n, tag) && host.requirements(tag).None?) && Built(n1, tag) == Built(n, tag)
  {
    var n1, id := AfterActivate(host, compare, d, n, force), host.instance(tag);
    assert tag in n.releases;
    ActivateRecord(host, compare, d, n, force, tag);
    ActivateKeys(host, compare, d, n, force);
    if id in n.instances {
      assert id !in ProviderIds(Resolve(compare, Serving(d, n), n)) by {
        StagingIsNoProvider(host, compare, d, n, tag);
      }
      StopsDaemon(host, d, n, Resolve(compare, Serving(d, n), n), id);
    }
  }

  lemma StagingGoesLive(host: Host, compare: Comparison, d: Desired, n: Observed, force: Option<Tag>, tag: Tag)
    requires Good(host, d, n) && WorkDone(compare, d, n) && d.staging == Some(tag) && ReadyStaging(d, n) == Some(tag)
    requires Good(host, d, AfterActivate(host, compare, d, n, force))
    ensures StagingCount(host, compare, d, AfterActivate(host, compare, d, n, force), false) == 1
  {
    var n1 := AfterActivate(host, compare, d, n, force);
    ServedIsBound(host, compare, d, n, force, tag);
    ServedIsBound(host, compare, d, n, force, d.production);
    ServedIsReady(compare, d, n, tag);
    ActivationRecordsBinding(host, compare, d, n, force, tag);
    BindingForeseen(host, compare, d, n1, tag);
    BuiltIsDescribed(host, d, n1, tag);
  }

  /** A switch brings about for staging what was foreseen. */
  lemma SwitchedStaging(host: Host, compare: Comparison, d: Desired, n: Observed, force: Option<Tag>)
    requires Good(host, d, n) && WorkDone(compare, d, n) && Good(host, d, AfterActivate(host, compare, d, n, force))
    ensures StagingCount(host, compare, d, AfterActivate(host, compare, d, n, force), false)
              == StagingCount(host, compare, d, n, true)
  {
    if d.staging.Some? {
      var tag := d.staging.value;
      BuiltIsDescribed(host, d, n, tag);
      if ReadyStaging(d, n) == Some(tag) {
        StagingGoesLive(host, compare, d, n, force, tag);
      } else {
        StagingStops(host, compare, d, n, force, tag);
      }
    }
  }

  /** Each switch is one action, whether for production or for a staging release that is ready for it. */
  lemma SwitchCounts(host: Host, compare: Comparison, d: Desired, n: Observed, force: Option<Tag>)
    requires Good(host, d, n) && WorkDone(compare, d, n)
    requires if Late(compare, d, n)
             then Unchecked(n, ProductionTags(d)) == 0 && ReadyStaging(d, n) == d.staging && StagingDue(compare, d, n)
             else !WillBlock(host, d, n, force) && !WillQualify(host, d, n, force)
    ensures OneLess(host, compare, d, n, AfterActivate(host, compare, d, n, force), force)
  {
    var n1 := AfterActivate(host, compare, d, n, force);
    ActivateStaysSettled(host, compare, d, n, force);
    SwitchedIsLate(host, compare, d, n, force);
    LateCount(host, compare, d, n1, force);
    SwitchedStaging(host, compare, d, n, force);
    DoneCount(host, compare, d, n, force);
    if Late(compare, d, n) {
      LateCount(host, compare, d, n, force);
      if d.staging.Some? {
        BuiltIsDescribed(host, d, n, d.staging.value);
        BindingForeseen(host, compare, d, n, d.staging.value);
      }
    }
  }

  /** Staging is ready, but not live or not bound as it should be; or there is a staging channel and should be none. */
  predicate StagingDue(compare: Comparison, d: Desired, n: Observed) {
    n.staging != d.staging || (d.staging.Some? && BindingChanged(compare, d, n, d.staging.value))
  }

  // ----- Verdicts and staging -----

  /** A verdict on a release leaves its work and its bindings as they were. */
  lemma VerdictKeeps(host: Host, compare: Comparison, d: Desired, n: Observed, r: Release, tag: Tag, n': Observed)
    requires tag in Tags(d) && forall u | u in Tags(d) :: u in n.releases
    requires r == n.releases[tag].(qualification := r.qualification, deployment := r.deployment)
    requires n' == n.(releases := n.releases[tag := r])
    ensures Needed(host, compare, d, n', ProductionTags(d)) == Needed(host, compare, d, n, ProductionTags(d))
    ensures WillSwitch(host, compare, d, n') == WillSwitch(host, compare, d, n)
    ensures d.staging != Some(tag) ==>
              forall b :: StagingCount(host, compare, d, n', b) == StagingCount(host, compare, d, n, b)
  {
    VerdictSight(host, d, n, r, tag, n');
    forall u | u in ProductionTags(d)
      ensures u in n.releases && u in n'.releases && SameNeed(host, compare, d, n, n', u) && SameRecorded(n, n', u)
    {
      ProductionTagIn(d, u);
      ReasonKept(host, compare, d, n, n', u);
      assert u == tag || SameSight(host, n, n', u);
    }
    NeededSame(host, compare, d, n, n', ProductionTags(d));
    SwitchKept(host, compare, d, n, n');
    if d.staging != Some(tag) {
      forall b ensures StagingCount(host, compare, d, n', b) == StagingCount(host, compare, d, n, b) {
        StagingKept(host, compare, d, n, n', b);
      }
    }
  }

  lemma QualifyCounts(host: Host, compare: Comparison, d: Desired, n: Observed, force: Option<Tag>)
    requires Good(host, d, n) && WorkDone(compare, d, n) && n.production != Some(d.production)
    requires n.staging == Some(d.production) && !Qualified(n, d.production) && force != Some(d.production)
    ensures OneLess(host, compare, d, n, AfterQualify(n, d.production), force)
  {
    var p := d.production;
    DoneCount(host, compare, d, n, force);
    VerdictKeeps(host, compare, d, n, n.releases[p].(deployment := Passed, qualification := Passed), p,
        AfterQualify(n, p));
  }

  /** What is left of a production channel that needs no switch. */
  lemma ServedRest(host: Host, compare: Comparison, d: Desired, n: Observed, force: Option<Tag>)
    requires n.production == Some(d.production) && !WillSwitch(host, compare, d, n)
    ensures RestCount(host, compare, d, n, force)
         == Unchecked(n, ProductionTags(d)) + StagingCount(host, compare, d, n, false)
  {}

  lemma CheckCounts(host: Host, compare: Comparison, d: Desired, n: Observed, force: Option<Tag>, tag: Tag,
                    n': Observed)
    requires Good(host, d, n) && Late(compare, d, n) && tag in ProductionTags(d) && Built(n, tag) && !Deployed(n, tag)
    requires n' == AfterCheck(n, tag)
    ensures OneLess(host, compare, d, n, n', force)
  {
    ProductionTagIn(d, tag);
    VerdictKeeps(host, compare, d, n, n.releases[tag].(deployment := Passed), tag, n');
    assert n.production == Some(d.production) && !WillSwitch(host, compare, d, n) by {
      LateCount(host, compare, d, n, force);
    }
    assert Unchecked(n, ProductionTags(d)) == Unchecked(n', ProductionTags(d)) + 1 by {
      ProductionTagsDistinct(d);
      UncheckedDrops(n, n', ProductionTags(d), tag);
    }
    ServedRest(host, compare, d, n, force);
    ServedRest(host, compare, d, n', force);
  }

  /** Work on staging leaves the production channel as it was. */
  lemma StagingWork(host: Host, compare: Comparison, d: Desired, n: Observed, n': Observed, force: Option<Tag>)
    requires Good(host, d, n) && Late(compare, d, n) && SameLaunch(host, d, n, n') && SameChannels(n, n')
    requires forall u | u in Tags(d) && d.staging != Some(u) :: SameSight(host, n, n', u)
    requires StagingCount(host, compare, d, n, false) == StagingCount(host, compare, d, n', false) + 1
    ensures OneLess(host, compare, d, n, n', force)
  {
    LateCount(host, compare, d, n, force);
    forall u | u in ProductionTags(d)
      ensures SameSight(host, n, n', u) && SameNeed(host, compare, d, n, n', u) && Checked(n', u) == Checked(n, u)
    {
      ProductionTagIn(d, u);
      SightKeeps(host, compare, d, n, n', u);
    }
    NeededSame(host, compare, d, n, n', ProductionTags(d));
    SwitchKept(host, compare, d, n, n');
    UncheckedSame(n, n', ProductionTags(d));
    ServedRest(host, compare, d, n, force);
    ServedRest(host, compare, d, n', force);
  }

  /** One thing less to do for a staging release, and nothing else changed for it. */
  lemma StagingDrops(host: Host, compare: Comparison, d: Desired, n: Observed, n': Observed, tag: Tag)
    requires d.staging == Some(tag) && n'.staging == n.staging
    requires WillRebind(host, compare, d, n', tag) == WillRebind(host, compare, d, n, tag)
    requires Built(n', tag)
    requires (Built(n, tag) ==> Checked(n', tag) == Checked(n, tag) && Qualified(n', tag) == Qualified(n, tag))
    requires if Built(n, tag) then !Up(host, n, tag) && Up(host, n', tag)
             else Up(host, n', tag) == Up(host, n, tag) && !Deployed(n', tag)
    ensures StagingCount(host, compare, d, n, false) == StagingCount(host, compare, d, n', false) + 1
  {}

  lemma BuildStagingCounts(host: Host, compare: Comparison, d: Desired, n: Observed, force: Option<Tag>, tag: Tag,
                           n': Observed)
    requires Good(host, d, n) && Late(compare, d, n) && d.staging == Some(tag) && !Built(n, tag)
    requires n' == Normalize(host, d, AfterBuild(host, n, tag))
    ensures OneLess(host, compare, d, n, n', force)
  {
    BuildSight(host, d, n, tag, n');
    BuildChannels(host, d, n, tag, n');
    RebindKept(host, compare, d, n, n', tag);
    StagingDrops(host, compare, d, n, n', tag);
    StagingWork(host, compare, d, n, n', force);
  }

  lemma BuildChannels(host: Host, d: Desired, n: Observed, tag: Tag, n': Observed)
    requires tag in n.releases && n.production.Some? && n' == Normalize(host, d, AfterBuild(host, n, tag))
    ensures SameChannels(n, n')
  {
    ServedChannelsStay(host, d, AfterBuild(host, n, tag));
  }

  lemma StartChannels(host: Host, d: Desired, n: Observed, tag: Tag, n': Observed)
    requires tag in n.releases && n.production.Some? && n' == Normalize(host, d, AfterStart(host, n, tag))
    ensures SameChannels(n, n')
  {
    ServedChannelsStay(host, d, AfterStart(host, n, tag));
  }

  lemma StartStagingCounts(host: Host, compare: Comparison, d: Desired, n: Observed, force: Option<Tag>, tag: Tag,
                           n': Observed)
    requires Good(host, d, n) && Late(compare, d, n) && d.staging == Some(tag) && Built(n, tag) && !Up(host, n, tag)
    requires n' == Normalize(host, d, AfterStart(host, n, tag))
    ensures OneLess(host, compare, d, n, n', force)
  {
    StartSight(host, d, n, tag, n');
    StartChannels(host, d, n, tag, n');
    RebindKept(host, compare, d, n, n', tag);
    StagingDrops(host, compare, d, n, n', tag);
    StagingWork(host, compare, d, n, n', force);
  }

  lemma VerdictStagingCounts(host: Host, compare: Comparison, d: Desired, n: Observed, force: Option<Tag>, r: Release,
                             tag: Tag, n': Observed)
    requires Good(host, d, n) && Late(compare, d, n) && d.staging == Some(tag) && n.staging == Some(tag)
    requires Built(n, tag) && Up(host, n, tag) && !WillRebind(host, compare, d, n, tag)
    requires r == n.releases[tag].(qualification := Passed, deployment := Passed)
    requires n' == n.(releases := n.releases[tag := r])
    requires !(Qualified(n, tag) && Deployed(n, tag))
    ensures OneLess(host, compare, d, n, n', force)
  {
    VerdictSight(host, d, n, r, tag, n');
    RebindKept(host, compare, d, n, n', tag);
    StagingWork(host, compare, d, n, n', force);
  }

  // ----- Every action counts for one -----

  lemma {:induction false} FirstUncheckedIn(n: Observed, tags: seq<Tag>)
    requires forall u | u in tags :: Built(n, u)
    ensures FirstUnchecked(n, tags).Some? ==>
              FirstUnchecked(n, tags).value in tags && !Deployed(n, FirstUnchecked(n, tags).value)
    ensures FirstUnchecked(n, tags).None? <==> Unchecked(n, tags) == 0
  {
    if tags != [] {
      assert tags[0] in tags;
      FirstUncheckedIn(n, tags[1..]);
    }
  }

  lemma AllBuilt(compare: Comparison, d: Desired, n: Observed)
    requires WorkDone(compare, d, n)
    ensures forall u | u in ProductionTags(d) :: Built(n, u)
  {
    forall u | u in ProductionTags(d) ensures Built(n, u) {
      var i :| 0 <= i < |ProductionTags(d)| && ProductionTags(d)[i] == u;
      NoFirstWork(compare, d, n, ProductionTags(d), i);
    }
  }

  lemma WorkCounts(host: Host, compare: Comparison, d: Desired, n: Observed, force: Option<Tag>, a: Action)
    requires Good(host, d, n) && !WorkDone(compare, d, n) && MakePlan(compare, d, n, force).action == Some(a)
    ensures (a.BuildRelease? || a.StartFeeds?) && a.tag in Tags(d)
    ensures OneLess(host, compare, d, n, Next(host, compare, d, n, force, a), force)
  {
    var tag := WorkForeseen(host, compare, d, n);
    ProductionTagIn(d, tag);
    var n' := Next(host, compare, d, n, force, a);
    if Built(n, tag) {
      StartCounts(host, compare, d, n, force, tag, n');
    } else {
      BuildCounts(host, compare, d, n, force, tag, n');
    }
  }

  /** What the planner asks for while the production channel is not as desired. */
  lemma PromotionPlan(host: Host, compare: Comparison, d: Desired, n: Observed, force: Option<Tag>, a: Action)
    requires Good(host, d, n) && WorkDone(compare, d, n) && !Late(compare, d, n)
    requires MakePlan(compare, d, n, force).action == Some(a)
    ensures a.Activate? ==> !WillBlock(host, d, n, force) && !WillQualify(host, d, n, force)
    ensures !a.Activate? ==>
              && a == Qualify(d.production) && n.production != Some(d.production) && n.staging == Some(d.production)
              && !Qualified(n, d.production) && force != Some(d.production)
  {
    DoneCount(host, compare, d, n, force);
  }

  lemma PromotionCounts(host: Host, compare: Comparison, d: Desired, n: Observed, force: Option<Tag>, a: Action)
    requires Good(host, d, n) && WorkDone(compare, d, n) && !Late(compare, d, n)
    requires MakePlan(compare, d, n, force).action == Some(a)
    ensures (a.Activate? || a.tag in Tags(d))
    ensures OneLess(host, compare, d, n, Next(host, compare, d, n, force, a), force)
  {
    PromotionPlan(host, compare, d, n, force, a);
    if a.Activate? {
      ActivateNext(host, compare, d, n, force);
      SwitchCounts(host, compare, d, n, force);
    } else {
      VerdictNext(host, compare, d, n, force, d.production);
      QualifyCounts(host, compare, d, n, force);
    }
  }

  /** What the planner asks for once production is served and checked. */
  lemma StagingPlan(host: Host, compare: Comparison, d: Desired, n: Observed, force: Option<Tag>, a: Action)
    requires Good(host, d, n) && Late(compare, d, n) && FirstUnchecked(n, ProductionTags(d)).None?
    requires MakePlan(compare, d, n, force).action == Some(a)
    ensures a.Activate? ==> StagingDue(compare, d, n) && ReadyStaging(d, n) == d.staging
    ensures !a.Activate? ==> d.staging == Some(a.tag)
    ensures a.BuildRelease? ==> !Built(n, a.tag)
    ensures !a.Activate? && !a.BuildRelease? ==> Built(n, a.tag) && Up(host, n, a.tag) == !a.StartFeeds?
    ensures a.Qualify? || a.CheckDeployment? ==>
              n.staging == Some(a.tag) && !WillRebind(host, compare, d, n, a.tag)
              && !(Qualified(n, a.tag) && Deployed(n, a.tag))
    ensures a.CheckDeployment? ==> Qualified(n, a.tag)
  {
    if d.staging.Some? {
      BuiltIsDescribed(host, d, n, d.staging.value);
      if Built(n, d.staging.value) { BindingForeseen(host, compare, d, n, d.staging.value); }
    }
  }

  lemma StagingVerdictCounts(host: Host, compare: Comparison, d: Desired, n: Observed, force: Option<Tag>, a: Action)
    requires Good(host, d, n) && Late(compare, d, n) && (a.Qualify? || a.CheckDeployment?) && d.staging == Some(a.tag)
    requires Built(n, a.tag) && Up(host, n, a.tag) && n.staging == Some(a.tag)
    requires !WillRebind(host, compare, d, n, a.tag)
    requires !(Qualified(n, a.tag) && Deployed(n, a.tag)) && (a.CheckDeployment? ==> Qualified(n, a.tag))
    ensures OneLess(host, compare, d, n, Next(host, compare, d, n, force, a), force)
  {
    var r := n.releases[a.tag].(qualification := Passed, deployment := Passed);
    VerdictNext(host, compare, d, n, force, a.tag);
    VerdictStagingCounts(host, compare, d, n, force, r, a.tag, Next(host, compare, d, n, force, a));
  }

  lemma StagingCounts(host: Host, compare: Comparison, d: Desired, n: Observed, force: Option<Tag>, a: Action)
    requires Good(host, d, n) && Late(compare, d, n) && FirstUnchecked(n, ProductionTags(d)).None?
    requires MakePlan(compare, d, n, force).action == Some(a)
    ensures (a.Activate? || a.tag in Tags(d))
    ensures OneLess(host, compare, d, n, Next(host, compare, d, n, force, a), force)
  {
    StagingPlan(host, compare, d, n, force, a);
    match a {
      case BuildRelease(tag) => BuildStagingCounts(host, compare, d, n, force, tag,
                                  Next(host, compare, d, n, force, a));
      case StartFeeds(tag) => StartStagingCounts(host, compare, d, n, force, tag, Next(host, compare, d, n, force, a));
      case Activate =>
        AllBuilt(compare, d, n);
        FirstUncheckedIn(n, ProductionTags(d));
        ActivateNext(host, compare, d, n, force);
        SwitchCounts(host, compare, d, n, force);
      case Qualify(tag) => StagingVerdictCounts(host, compare, d, n, force, a);
      case CheckDeployment(tag) => StagingVerdictCounts(host, compare, d, n, force, a);
    }
  }

  /** Every action the planner asks for leaves exactly one less to do, and a state of the same kind. */
  lemma ActionCounts(host: Host, compare: Comparison, d: Desired, n: Observed, force: Option<Tag>, a: Action)
    requires Good(host, d, n) && MakePlan(compare, d, n, force).action == Some(a)
    ensures a.Activate? || a.tag in Tags(d)
    ensures OneLess(host, compare, d, n, Next(host, compare, d, n, force, a), force)
    ensures Good(host, d, Next(host, compare, d, n, force, a))
  {
    if !WorkDone(compare, d, n) {
      WorkCounts(host, compare, d, n, force, a);
    } else if !Late(compare, d, n) {
      PromotionCounts(host, compare, d, n, force, a);
    } else if FirstUnchecked(n, ProductionTags(d)).None? {
      StagingCounts(host, compare, d, n, force, a);
    } else {
      AllBuilt(compare, d, n);
      FirstUncheckedIn(n, ProductionTags(d));
      ProductionTagIn(d, a.tag);
      VerdictNext(host, compare, d, n, force, a.tag);
      CheckCounts(host, compare, d, n, force, a.tag, AfterCheck(n, a.tag));
    }
    NextSettles(host, compare, d, n, force, a);
  }

  /** A plan without an action leaves nothing to do. */
  lemma NothingLeft(host: Host, compare: Comparison, d: Desired, n: Observed, force: Option<Tag>)
    requires Good(host, d, n) && MakePlan(compare, d, n, force).action.None?
    ensures ActionsLeft(host, compare, d, n, force) == 0
  {
    DoneCount(host, compare, d, n, force);
    if n.production == Some(d.production) {
      AllBuilt(compare, d, n);
      FirstUncheckedIn(n, ProductionTags(d));
      if d.staging.Some? {
        BuiltIsDescribed(host, d, n, d.staging.value);
        BindingForeseen(host, compare, d, n, d.staging.value);
      }
    }
  }
}
