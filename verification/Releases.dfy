/** Desired and observed releases, live-feed bindings and the planner of tools/release_reconciler.py. */
module Releases {
  import opened Wrappers
  import opened Compatibility

  type Tag = string
  type InstanceId = string

  /** The assignment in `releases.json`; `dedicated` are the sunset releases that opted out of sharing. */
  datatype Desired = Desired(production: Tag, staging: Option<Tag>, sunset: seq<Tag>, dedicated: set<Tag>)

  /** What `parse_desired_releases` enforces: no release has two roles. */
  ghost predicate Assigned(d: Desired) {
    && d.production !in d.sunset
    && (d.staging.Some? ==> d.staging.value != d.production && d.staging.value !in d.sunset)
    && forall i, j | 0 <= i < j < |d.sunset| :: d.sunset[i] != d.sunset[j]
  }

  datatype Status = Pending | Passed | Failed | Bypassed
  datatype FeedStatus = NotStarted | Running | Unavailable | StartFailed | Stopped | Removed

  datatype Reason =
    | DedicatedProduction
    | DedicatedStaging
    | DedicatedPolicy
    | ProductionNotReady
    | NotCompatible(why: Why)
    | IdentityDiffers
    | SharedWith(tag: Tag)

  datatype Release = Release(
    commit: string, build: Status, qualification: Status, deployment: Status,
    manifest: Option<string>, root: Option<string>,
    endpoint: Option<string>, feed: FeedStatus, requirements: Option<Json>,
    instance: Option<InstanceId>, provider: Option<InstanceId>, reason: Option<Reason>, draining: Option<int>)

  datatype Instance = Instance(
    tag: Tag, endpoint: string, manifest: string, manifestSha: Option<string>,
    evidence: Option<Json>, status: FeedStatus, draining: Option<int>)

  datatype Observed = Observed(
    releases: map<Tag, Release>, instances: map<InstanceId, Instance>,
    production: Option<Tag>, staging: Option<Tag>, sunset: seq<Tag>,
    generation: nat, dirty: bool, gcPending: bool)

  type Comparison = (Option<Json>, Option<Json>) -> Decision

  function ProductionTags(d: Desired): seq<Tag> { [d.production] + d.sunset }

  function Tags(d: Desired): set<Tag> {
    {d.production} + (set i | 0 <= i < |d.sunset| :: d.sunset[i]) + (if d.staging.Some? then {d.staging.value} else {})
  }

  // ----- Daemons -----

  function InstanceOf(o: Observed, tag: Tag): Option<Instance> {
    if tag in o.releases && o.releases[tag].instance.Some? && o.releases[tag].instance.value in o.instances
    then Some(o.instances[o.releases[tag].instance.value]) else None
  }

  /** `dedicated_live_feed_ready`: the release's own daemon is up; the legacy fields count only without an instance. */
  predicate Ready(o: Observed, tag: Tag) {
    && tag in o.releases
    && var r := o.releases[tag];
    if r.instance.None? then r.endpoint.Some? && r.endpoint.value != "" && r.feed.Running?
    else
      var i := InstanceOf(o, tag);
      i.Some? && i.value.tag == tag && i.value.endpoint != "" && i.value.status.Running? && i.value.draining.None?
  }

  /** The values a binding was decided on; its digest is taken to be injective, so the values stand for it. */
  datatype ReleaseFacts = ReleaseFacts(tag: Tag, commit: string, manifest: Option<string>, requirements: Option<Json>)
  datatype Verification = Verification(
    release: Option<ReleaseFacts>, provider: Option<ReleaseFacts>, instance: Option<Instance>,
    legacyEndpoint: Option<string>, legacyStatus: Option<FeedStatus>)

  datatype Binding = Binding(
    tag: Tag, provider: Option<InstanceId>, providerTag: Tag, endpoint: Option<string>, reason: Reason,
    verification: Verification)

  function Facts(o: Observed, tag: Tag): Option<ReleaseFacts> {
    if tag in o.releases
    then Some(ReleaseFacts(tag, o.releases[tag].commit, o.releases[tag].manifest, o.releases[tag].requirements))
    else None
  }

  function StableInstance(i: Instance): Instance {
    i.(evidence := if i.evidence.Some? then Some(VerificationEvidence(i.evidence.value)) else None)
  }

  function Bind(o: Observed, tag: Tag, providerTag: Tag, reason: Reason): Binding {
    var key := if providerTag in o.releases then o.releases[providerTag].instance else None;
    var instance := InstanceOf(o, providerTag);
    var legacy := providerTag in o.releases && key.None?;
    var endpoint :=
      if instance.Some? then Some(instance.value.endpoint)
      else if legacy then o.releases[providerTag].endpoint else None;
    Binding(tag, key, providerTag, endpoint, reason,
            Verification(Facts(o, tag), Facts(o, providerTag),
                         if instance.Some? then Some(StableInstance(instance.value)) else None,
                         if key.None? then endpoint else None,
                         if legacy then Some(o.releases[providerTag].feed) else None))
  }

  function Field(v: Json, key: string): Json {
    if v.Object? && key in v.fields then v.fields[key] else Null
  }

  /** The evidence names this production release, this launch and the publication it was started with. */
  predicate NamesInstance(evidence: Json, tag: Tag, id: InstanceId, i: Instance) {
    && Field(evidence, "release_tag") == Str(tag)
    && Field(evidence, "launch_instance_id") == Str(id)
    && Field(evidence, "startup_publication")
       == Object(map["path" := Str(i.manifest), "sha256" := if i.manifestSha.Some? then Str(i.manifestSha.value)
           else Null])
  }

  /** Whether a sunset release may use production's daemon, and why not. */
  function SunsetReason(compare: Comparison, d: Desired, o: Observed, tag: Tag): Reason {
    if tag in d.dedicated then DedicatedPolicy
    else if !Ready(o, d.production) then ProductionNotReady
    else
      var i := InstanceOf(o, d.production);
      var decision := compare(if tag in o.releases then o.releases[tag].requirements else None,
                              if i.Some? then i.value.evidence else None);
      if decision.Incompatible? then NotCompatible(decision.why)
      else if i.Some? && !(i.value.evidence.Some?
                           && NamesInstance(i.value.evidence.value, d.production,
                                o.releases[d.production].instance.value, i.value))
      then IdentityDiffers
      else SharedWith(d.production)
  }

  function ReasonFor(compare: Comparison, d: Desired, o: Observed, tag: Tag): Reason {
    if tag == d.production then DedicatedProduction
    else if d.staging == Some(tag) then DedicatedStaging
    else SunsetReason(compare, d, o, tag)
  }

  function ProviderTag(compare: Comparison, d: Desired, o: Observed, tag: Tag): Tag {
    var reason := ReasonFor(compare, d, o, tag);
    if reason.SharedWith? then reason.tag else tag
  }

  /** `resolve_live_feed_bindings`. */
  function Resolve(compare: Comparison, d: Desired, o: Observed): map<Tag, Binding> {
    map tag | tag in Tags(d) :: Bind(o, tag, ProviderTag(compare, d, o, tag), ReasonFor(compare, d, o, tag))
  }

  /** `validate_live_feed_bindings`: the same complete decision, and every provider ready. */
  predicate Validate(compare: Comparison, d: Desired, o: Observed, proposed: map<Tag, Binding>) {
    && Resolve(compare, d, o) == proposed
    && forall tag | tag in proposed ::
         Ready(o, proposed[tag].providerTag)
         && (proposed[tag].providerTag != tag ==> proposed[tag].providerTag == d.production)
  }

  // ----- The planner -----

  datatype Action =
    | BuildRelease(tag: Tag)
    | StartFeeds(tag: Tag)
    | Activate
    | Qualify(tag: Tag)
    | CheckDeployment(tag: Tag)

  /** At most one action at a time; blocked without an action is a dead end for this run. */
  datatype Plan = Plan(action: Option<Action>, blocked: bool) {
    predicate Converged() { action.None? && !blocked }
  }

  predicate Built(o: Observed, tag: Tag) { tag in o.releases && o.releases[tag].build.Passed? }

  /** The first release of the list that must be built or whose provider must be started. */
  function FirstWork(compare: Comparison, d: Desired, o: Observed, tags: seq<Tag>): Option<Action> {
    if tags == [] then None
    else if !Built(o, tags[0]) then Some(BuildRelease(tags[0]))
    else if !Ready(o, ProviderTag(compare, d, o, tags[0])) then Some(StartFeeds(ProviderTag(compare, d, o, tags[0])))
    else FirstWork(compare, d, o, tags[1..])
  }

  predicate BindingChanged(compare: Comparison, d: Desired, o: Observed, tag: Tag) {
    tag !in o.releases
    || var b := Bind(o, tag, ProviderTag(compare, d, o, tag), ReasonFor(compare, d, o, tag));
       !(b.provider.None? && o.releases[tag].provider.None?)
       && (o.releases[tag].provider != b.provider || o.releases[tag].reason != Some(b.reason))
  }

  /** The serving channels, apart from staging, are not what is desired. */
  predicate ChannelsStale(compare: Comparison, d: Desired, o: Observed) {
    || o.dirty || o.generation == 0 || o.sunset != d.sunset
    || exists i | 0 <= i < |ProductionTags(d)| :: BindingChanged(compare, d, o, ProductionTags(d)[i])
  }

  predicate Deployed(o: Observed, tag: Tag) { tag in o.releases && o.releases[tag].deployment.Passed? }

  function FirstUnchecked(o: Observed, tags: seq<Tag>): Option<Tag> {
    if tags == [] then None
    else if !Deployed(o, tags[0]) then Some(tags[0])
    else FirstUnchecked(o, tags[1..])
  }

  function PlanStaging(compare: Comparison, d: Desired, o: Observed, tag: Tag): Option<Action> {
    if !Built(o, tag) then Some(BuildRelease(tag))
    else if !Ready(o, tag) then Some(StartFeeds(tag))
    else if o.staging != Some(tag) || BindingChanged(compare, d, o, tag) then Some(Activate)
    else if !o.releases[tag].qualification.Passed? then Some(Qualify(tag))
    else if !Deployed(o, tag) then Some(CheckDeployment(tag))
    else None
  }

  /** `plan_reconciliation`. */
  function MakePlan(compare: Comparison, d: Desired, o: Observed, force: Option<Tag>): Plan {
    var work := FirstWork(compare, d, o, ProductionTags(d));
    if work.Some? then Plan(work, false)
    else if o.production != Some(d.production) then
      var qualified := d.production in o.releases && o.releases[d.production].qualification.Passed?;
      var forced := force == Some(d.production);
      if !qualified && !forced then
        if o.staging != Some(d.production) then Plan(None, true) else Plan(Some(Qualify(d.production)), true)
      else if forced && o.staging != Some(d.production) then Plan(None, true)
      else Plan(Some(Activate), false)
    else if ChannelsStale(compare, d, o) then Plan(Some(Activate), false)
    else
      var unchecked := FirstUnchecked(o, ProductionTags(d));
      if unchecked.Some? then Plan(Some(CheckDeployment(unchecked.value)), false)
      else
        var staging := if d.staging.Some? then PlanStaging(compare, d, o, d.staging.value) else None;
        if staging.Some? then Plan(staging, false)
        else if o.staging != d.staging then Plan(Some(Activate), false)
        else Plan(None, false)
  }

  // ----- Activation's own guards -----

  function ReadyStaging(d: Desired, o: Observed): Option<Tag> {
    if d.staging.Some? && Built(o, d.staging.value) && Ready(o, d.staging.value) then d.staging else None
  }

  /** The releases an activation would serve. */
  function Serving(d: Desired, o: Observed): Desired { d.(staging := ReadyStaging(d, o)) }

  /** Everything `activate` raises on before it writes anything. */
  ghost predicate ActivationReady(compare: Comparison, d: Desired, o: Observed) {
    var s := Serving(d, o);
    var bindings := Resolve(compare, s, o);
    && Validate(compare, s, o, bindings)
    && forall tag | tag in Tags(s) ::
         && tag in o.releases && o.releases[tag].manifest.Some? && o.releases[tag].root.Some?
         && bindings[tag].endpoint.Some?
  }

  predicate Qualified(o: Observed, tag: Tag) { tag in o.releases && o.releases[tag].qualification.Passed? }

  /** What is on staging is built, as it is wherever an activation put it there. */
  predicate StagingBuilt(o: Observed) { o.staging.Some? ==> Built(o, o.staging.value) }

  /** A built release has its manifest and its root recorded. */
  ghost predicate RootedBuilds(o: Observed) {
    forall tag | Built(o, tag) :: o.releases[tag].manifest.Some? && o.releases[tag].root.Some?
  }

  lemma {:induction false} NoFirstWork(compare: Comparison, d: Desired, o: Observed, tags: seq<Tag>, i: nat)
    requires FirstWork(compare, d, o, tags).None? && i < |tags|
    ensures Built(o, tags[i]) && Ready(o, ProviderTag(compare, d, o, tags[i]))
  {
    if i > 0 { NoFirstWork(compare, d, o, tags[1..], i - 1); }
  }

  lemma ReadyHasEndpoint(o: Observed, tag: Tag, providerTag: Tag, reason: Reason)
    requires Ready(o, providerTag)
    ensures Bind(o, tag, providerTag, reason).endpoint.Some?
  {}

  /** Leaving staging out changes no other release's provider. */
  lemma ServingProviders(compare: Comparison, d: Desired, o: Observed, tag: Tag)
    requires Assigned(d) && tag in Tags(Serving(d, o))
    ensures tag in Tags(d) && ReasonFor(compare, Serving(d, o), o, tag) == ReasonFor(compare, d, o, tag)
  {}

  lemma ActivationNeedsNoWork(compare: Comparison, d: Desired, o: Observed, force: Option<Tag>)
    requires MakePlan(compare, d, o, force).action == Some(Activate)
    ensures FirstWork(compare, d, o, ProductionTags(d)).None?
  {
    NeverActivates(compare, d, o, ProductionTags(d));
  }

  lemma NoWorkMeansReady(compare: Comparison, d: Desired, o: Observed)
    requires Assigned(d) && RootedBuilds(o) && FirstWork(compare, d, o, ProductionTags(d)).None?
    ensures ActivationReady(compare, d, o)
  {
    var s := Serving(d, o);
    var bindings := Resolve(compare, s, o);
    forall tag | tag in Tags(s)
      ensures Built(o, tag) && Ready(o, bindings[tag].providerTag) && bindings[tag].endpoint.Some?
      ensures bindings[tag].providerTag != tag ==> bindings[tag].providerTag == d.production
    {
      ServedIsReady(compare, d, o, tag);
      ReadyHasEndpoint(o, tag, ProviderTag(compare, s, o, tag), ReasonFor(compare, s, o, tag));
    }
  }

  /**
   Whenever the planner asks for an activation, every guard of the activation holds: each served
   release is built with its files recorded, and each provider is ready and has an endpoint.
   */
  lemma PlannedActivationIsReady(compare: Comparison, d: Desired, o: Observed, force: Option<Tag>)
    requires Assigned(d) && RootedBuilds(o) && MakePlan(compare, d, o, force).action == Some(Activate)
    ensures ActivationReady(compare, d, o)
  {
    ActivationNeedsNoWork(compare, d, o, force);
    NoWorkMeansReady(compare, d, o);
  }

  /** With no production work left, every release an activation would serve is built and has a ready provider. */
  lemma ServedIsReady(compare: Comparison, d: Desired, o: Observed, tag: Tag)
    requires Assigned(d) && FirstWork(compare, d, o, ProductionTags(d)).None? && tag in Tags(Serving(d, o))
    ensures Built(o, tag) && Ready(o, ProviderTag(compare, Serving(d, o), o, tag))
  {
    ServingProviders(compare, d, o, tag);
    if tag == d.production {
      assert ProductionTags(d)[0] == tag;
      NoFirstWork(compare, d, o, ProductionTags(d), 0);
    } else if tag in d.sunset {
      var j :| 0 <= j < |d.sunset| && d.sunset[j] == tag;
      assert ProductionTags(d)[j + 1] == tag;
      NoFirstWork(compare, d, o, ProductionTags(d), j + 1);
    }
  }

  lemma {:induction false} NeverActivates(compare: Comparison, d: Desired, o: Observed, tags: seq<Tag>)
    ensures FirstWork(compare, d, o, tags) != Some(Activate)
  {
    if tags != [] { NeverActivates(compare, d, o, tags[1..]); }
  }

  /**
   Every planned action is due: releases are built once, only built ones are started, nothing is qualified off
   staging, and production changes only to a release that was qualified, or was forced while on staging.
   */
  ghost predicate Due(d: Desired, o: Observed, force: Option<Tag>, a: Action) {
    match a
    case BuildRelease(tag) => tag in Tags(d) && !Built(o, tag)
    case StartFeeds(tag) => tag in Tags(d) && Built(o, tag) && !Ready(o, tag)
    case Activate =>
      && Built(o, d.production) && (forall tag | tag in d.sunset :: Built(o, tag))
      && (o.production == Some(d.production)
          || o.releases[d.production].qualification.Passed?
          || (force == Some(d.production) && o.staging == Some(d.production)))
    case Qualify(tag) =>
      && tag in {d.production} + (if d.staging.Some? then {d.staging.value} else {})
      && o.staging == Some(tag) && Built(o, tag) && Ready(o, tag) && !o.releases[tag].qualification.Passed?
    case CheckDeployment(tag) =>
      && tag in Tags(d) && o.production == Some(d.production) && o.sunset == d.sunset && !o.dirty
      && Built(o, tag) && !o.releases[tag].deployment.Passed?
  }

  lemma {:induction false} WorkIsDue(compare: Comparison, d: Desired, o: Observed, force: Option<Tag>, tags: seq<Tag>)
    requires Assigned(d) && (forall tag | tag in tags :: tag in ProductionTags(d))
    requires FirstWork(compare, d, o, tags).Some?
    ensures var a := FirstWork(compare, d, o, tags).value; !a.Activate? && Due(d, o, force, a)
  {
    var tag := tags[0];
    assert tag in tags;
    assert tag in Tags(d);
    if Built(o, tag) && Ready(o, ProviderTag(compare, d, o, tag)) {
      WorkIsDue(compare, d, o, force, tags[1..]);
    } else if Built(o, tag) {
      OwnOrShared(compare, d, o, tag);
    }
  }

  lemma {:induction false} UncheckedIsDue(o: Observed, tags: seq<Tag>)
    requires FirstUnchecked(o, tags).Some?
    ensures FirstUnchecked(o, tags).value in tags && !Deployed(o, FirstUnchecked(o, tags).value)
  {
    if Deployed(o, tags[0]) { UncheckedIsDue(o, tags[1..]); }
  }

  lemma PlannedIsDue(compare: Comparison, d: Desired, o: Observed, force: Option<Tag>)
    requires Assigned(d) && MakePlan(compare, d, o, force).action.Some?
    ensures Due(d, o, force, MakePlan(compare, d, o, force).action.value)
  {
    if FirstWork(compare, d, o, ProductionTags(d)).Some? {
      WorkIsDue(compare, d, o, force, ProductionTags(d));
    } else {
      forall tag | tag == d.production || tag in d.sunset ensures Built(o, tag) && tag in Tags(d) {
        assert tag in ProductionTags(d);
        var i :| 0 <= i < |ProductionTags(d)| && ProductionTags(d)[i] == tag;
        NoFirstWork(compare, d, o, ProductionTags(d), i);
      }
      assert Ready(o, d.production) by { NoFirstWork(compare, d, o, ProductionTags(d), 0); }
      if FirstUnchecked(o, ProductionTags(d)).Some? { UncheckedIsDue(o, ProductionTags(d)); }
    }
  }

  // ----- Who serves whom -----

  /**
   A release is bound to its own daemon, or is a sunset release that did not opt out and is bound to
   production's ready daemon, whose evidence identifies it and was found compatible.
   */
  lemma OwnOrShared(compare: Comparison, d: Desired, o: Observed, tag: Tag)
    requires Assigned(d) && tag in Tags(d)
    ensures var b := Resolve(compare, d, o)[tag];
            || b.providerTag == tag
            || (&& tag in d.sunset && tag !in d.dedicated && b.providerTag == d.production && Ready(o, d.production)
                && compare(if tag in o.releases then o.releases[tag].requirements else None,
                           if InstanceOf(o, d.production).Some? then InstanceOf(o, d.production).value.evidence
                                else None).Compatible?)
  {}

  /** With the real comparison, sharing means equal wire formats and equal catalogs. */
  lemma SharedMeansEqual(c: Contract, d: Desired, o: Observed, tag: Tag)
    requires Assigned(d) && tag in Tags(d)
    requires Resolve((r, p) => Compare(c, r, p), d, o)[tag].providerTag != tag
    ensures tag in o.releases && o.releases[tag].requirements.Some?
    ensures var i := InstanceOf(o, d.production);
            && i.Some? && i.value.evidence.Some? && i.value.status.Running?
            && Field(o.releases[tag].requirements.value, "wire_contracts")
                 == Field(i.value.evidence.value, "wire_contracts")
            && Field(o.releases[tag].requirements.value, "notam_catalog")
                 == Field(i.value.evidence.value, "notam_catalog")
            && NamesInstance(i.value.evidence.value, d.production, o.releases[d.production].instance.value, i.value)
  {
    var compare: Comparison := (r, p) => Compare(c, r, p);
    OwnOrShared(compare, d, o, tag);
    CompatibleMeans(c, o.releases[tag].requirements.value, InstanceOf(o, d.production).value.evidence.value);
  }

  /** What the evidence must say of the daemon it comes from. */
  ghost predicate Identifies(evidence: Json, tag: Tag, id: InstanceId, i: Instance) {
    && evidence.Object? && {"release_tag", "launch_instance_id", "startup_publication"} <= evidence.fields.Keys
    && evidence.fields["release_tag"] == Str(tag) && evidence.fields["launch_instance_id"] == Str(id)
    && var started := evidence.fields["startup_publication"];
    && started.Object? && started.fields.Keys == {"path", "sha256"}
    && started.fields["path"] == Str(i.manifest)
    && started.fields["sha256"] == if i.manifestSha.Some? then Str(i.manifestSha.value) else Null
  }

  /** Production's own daemon is up, says of itself who it is, and fits what the release requires. */
  ghost predicate MayShare(c: Contract, d: Desired, o: Observed, tag: Tag) {
    && tag in o.releases && o.releases[tag].requirements.Some? && d.production in o.releases
    && var key := o.releases[d.production].instance;
    && key.Some? && key.value in o.instances
    && var i := o.instances[key.value];
    && i.tag == d.production && i.endpoint != "" && i.status.Running? && i.draining.None? && i.evidence.Some?
    && Fits(c, o.releases[tag].requirements.value, i.evidence.value)
    && Identifies(i.evidence.value, d.production, key.value, i)
  }

  /** A sunset release that did not opt out shares exactly if it may; every other release has its own daemon. */
  lemma SharedIff(c: Contract, d: Desired, o: Observed, tag: Tag)
    requires Assigned(d) && tag in Tags(d)
    ensures var b := Resolve((r, p) => Compare(c, r, p), d, o)[tag];
            b.providerTag == if tag in d.sunset && tag !in d.dedicated && MayShare(c, d, o, tag) then d.production
                             else tag
  {
    if tag in d.sunset { SunsetSharedIff(c, (r, p) => Compare(c, r, p), d, o, tag); }
  }

  lemma SunsetSharedIff(c: Contract, compare: Comparison, d: Desired, o: Observed, tag: Tag)
    requires forall r, p :: compare(r, p) == Compare(c, r, p)
    ensures SunsetReason(compare, d, o, tag) == SharedWith(d.production)
       <==> tag !in d.dedicated && MayShare(c, d, o, tag)
    ensures SunsetReason(compare, d, o, tag).SharedWith? ==> SunsetReason(compare, d, o, tag).tag == d.production
  {
    var i := InstanceOf(o, d.production);
    if tag in o.releases && o.releases[tag].requirements.Some? && i.Some? && i.value.evidence.Some? {
      CompatibleIff(c, o.releases[tag].requirements.value, i.value.evidence.value);
      NamesIff(i.value.evidence.value, d.production, o.releases[d.production].instance.value, i.value);
    }
  }

  lemma NamesIff(evidence: Json, tag: Tag, id: InstanceId, i: Instance)
    ensures Identifies(evidence, tag, id, i) <==> NamesInstance(evidence, tag, id, i)
  {
    if Identifies(evidence, tag, id, i) {
      var started := evidence.fields["startup_publication"];
      assert started.fields == map["path" := started.fields["path"], "sha256" := started.fields["sha256"]];
    }
  }

  /**
   A release is routed to its provider's own daemon at that daemon's address, or to the provider's
   legacy listener.
   */
  lemma BoundToProvider(compare: Comparison, d: Desired, o: Observed, tag: Tag)
    requires tag in Tags(d) && Ready(o, Resolve(compare, d, o)[tag].providerTag)
    ensures var b := Resolve(compare, d, o)[tag];
            && b.tag == tag && b.providerTag in o.releases
            && var provider := o.releases[b.providerTag];
            && b.provider == provider.instance
            && if provider.instance.Some?
               then && provider.instance.value in o.instances
                    && o.instances[provider.instance.value].tag == b.providerTag
                    && b.endpoint == Some(o.instances[provider.instance.value].endpoint)
               else b.endpoint == provider.endpoint
  {}

  /** The same commit, product manifest and requirements are recorded of the release. */
  ghost predicate SameFacts(o: Observed, o': Observed, tag: Tag) {
    if tag in o.releases && tag in o'.releases
    then && o.releases[tag].commit == o'.releases[tag].commit && o.releases[tag].manifest == o'.releases[tag].manifest
         && o.releases[tag].requirements == o'.releases[tag].requirements
    else tag !in o.releases && tag !in o'.releases
  }

  /** The daemons' records agree except for which state was published. */
  ghost predicate SameDaemon(i: Instance, i': Instance) {
    && i' == i.(evidence := i'.evidence)
    && (i.evidence.None? <==> i'.evidence.None?)
    && (i.evidence.Some? ==> VerificationEvidence(i.evidence.value) == VerificationEvidence(i'.evidence.value))
  }

  /** The provider is the same daemon as before or, without one, the same legacy listener in the same state. */
  ghost predicate SameProvider(o: Observed, o': Observed, tag: Tag)
    requires tag in o.releases && tag in o'.releases
  {
    var key := o.releases[tag].instance;
    && o'.releases[tag].instance == key
    && (key.None? ==>
          o.releases[tag].endpoint == o'.releases[tag].endpoint && o.releases[tag].feed == o'.releases[tag].feed)
    && (key.Some? ==> (key.value in o.instances <==> key.value in o'.instances))
    && (key.Some? && key.value in o.instances ==> SameDaemon(o.instances[key.value], o'.instances[key.value]))
  }

  /**
   A binding verified before is found again exactly if nothing it was decided on has changed since: the facts of
   both releases and the provider.
   */
  lemma SameBindingIff(o: Observed, o': Observed, tag: Tag, providerTag: Tag, reason: Reason)
    ensures Bind(o, tag, providerTag, reason) == Bind(o', tag, providerTag, reason) <==>
              && SameFacts(o, o', tag) && SameFacts(o, o', providerTag)
              && (providerTag in o.releases ==> SameProvider(o, o', providerTag))
  {}

  /** The observations differ only in what running daemons have meanwhile published. */
  ghost predicate OnlyStatesAdvanced(o: Observed, o': Observed) {
    && o' == o.(instances := o'.instances) && o'.instances.Keys == o.instances.Keys
    && forall id | id in o.instances ::
         var i, i' := o.instances[id], o'.instances[id];
         i' == i || (i.evidence.Some? && i'.evidence.Some? && i' == i.(evidence := i'.evidence)
                     && Advanced(i.evidence.value, i'.evidence.value))
  }

  lemma SunsetIgnoresStates(c: Contract, compare: Comparison, d: Desired, o: Observed, o': Observed, tag: Tag)
    requires OnlyStatesAdvanced(o, o') && forall r, p :: compare(r, p) == Compare(c, r, p)
    ensures SunsetReason(compare, d, o, tag) == SunsetReason(compare, d, o', tag)
  {
    var i, i' := InstanceOf(o, d.production), InstanceOf(o', d.production);
    if i.Some? && i' != i {
      StateAdvanceIsInvisible(c, if tag in o.releases then o.releases[tag].requirements else None,
                              i.value.evidence.value, i'.value.evidence.value);
      AdvancedFields(i.value.evidence.value, i'.value.evidence.value);
    }
  }

  lemma BindIgnoresStates(o: Observed, o': Observed, tag: Tag, providerTag: Tag, reason: Reason)
    requires OnlyStatesAdvanced(o, o')
    ensures Bind(o, tag, providerTag, reason) == Bind(o', tag, providerTag, reason)
  {
    var i, i' := InstanceOf(o, providerTag), InstanceOf(o', providerTag);
    if i.Some? && i' != i {
      StateAdvanceIsInvisible(Contract(Null, {}), None, i.value.evidence.value, i'.value.evidence.value);
    }
  }

  /** An ordinary product advance invalidates no binding: bindings and their verification stay what they were. */
  lemma BindingsIgnoreStates(c: Contract, d: Desired, o: Observed, o': Observed)
    requires OnlyStatesAdvanced(o, o')
    ensures Resolve((r, p) => Compare(c, r, p), d, o) == Resolve((r, p) => Compare(c, r, p), d, o')
  {
    var compare: Comparison := (r, p) => Compare(c, r, p);
    forall tag | tag in Tags(d)
      ensures Resolve(compare, d, o)[tag] == Resolve(compare, d, o')[tag]
    {
      SunsetIgnoresStates(c, compare, d, o, o', tag);
      BindIgnoresStates(o, o', tag, ProviderTag(compare, d, o, tag), ReasonFor(compare, d, o, tag));
    }
  }
}
