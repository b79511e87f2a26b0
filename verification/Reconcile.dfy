/**
 The action loop of tools/reconcile_prod_releases.py on a host where actions succeed and what is
 observed does not change by itself: it converges, or is blocked, within a linear number of actions.
 */
module Reconcile {
  import opened Wrappers
  import opened Compatibility
  import opened Releases

  /** Everything outside the controller: what building, describing, launching and probing yield. */
  datatype Host = Host(
    requirements: Tag -> Option<Json>, instance: Tag -> InstanceId, launch: InstanceId -> Instance,
    evidence: InstanceId -> Json, manifest: Tag -> string, root: Tag -> string, endpoint: Tag -> string,
    legacyCommit: Option<string>, deadline: int, expired: InstanceId -> bool)

  /** Launch identities belong to one release each, and listeners have an address. */
  ghost predicate Sane(host: Host) {
    && (forall t: Tag :: host.launch(host.instance(t)).tag == t)
    && (forall t: Tag :: host.launch(host.instance(t)).endpoint != "" && host.endpoint(t) != "")
    && (forall t: Tag :: var i := host.launch(host.instance(t)); i.status.NotStarted? && i.draining.None?)
  }

  // ----- What one turn of the loop does before planning -----

  /** `adopt_legacy_production_if_exact`. */
  predicate Adoptable(host: Host, d: Desired, o: Observed) {
    && o.production.None? && o.generation == 0 && d.production in o.releases
    && var r := o.releases[d.production];
    r.build.Passed? && r.endpoint.Some? && r.feed.Running? && host.legacyCommit == Some(r.commit)
  }

  function Adopt(host: Host, d: Desired, o: Observed): Observed {
    if Adoptable(host, d, o)
    then o.(production := Some(d.production), sunset := d.sunset,
            releases := o.releases[d.production := o.releases[d.production].(qualification := Passed)])
    else o
  }

  /** The release is prepared: it is desired, built, and its publication describes itself. */
  predicate Describes(host: Host, d: Desired, o: Observed, tag: Tag) {
    tag in Tags(d) && Built(o, tag) && host.requirements(tag).Some?
  }

  function RefreshRelease(host: Host, d: Desired, o: Observed, tag: Tag): Release
    requires tag in o.releases
  {
    var r := o.releases[tag];
    if Describes(host, d, o, tag) then r.(instance := Some(host.instance(tag)), requirements := host.requirements(tag))
    else if tag in Tags(d) && Built(o, tag) then r.(requirements := None)
    else r
  }

  function Prepared(host: Host, d: Desired, o: Observed): set<InstanceId> {
    set tag | tag in Tags(d) && Describes(host, d, o, tag) :: host.instance(tag)
  }

  /** `observe`, on a host whose started daemons stay up. */
  function Observe(host: Host, id: InstanceId, i: Instance): Instance {
    if i.status.Running? || i.status.Unavailable? then i.(status := Running, evidence := Some(host.evidence(id))) else i
  }

  function RefreshInstance(host: Host, d: Desired, o: Observed, id: InstanceId): Instance {
    Observe(host, id, if id in o.instances && !(id in Prepared(host, d, o) && o.instances[id].status.Removed?)
                      then o.instances[id] else host.launch(id))
  }

  /** `refresh_live_feed_observations`. */
  function Refresh(host: Host, d: Desired, o: Observed): Observed {
    o.(releases := map tag | tag in o.releases :: RefreshRelease(host, d, o, tag),
       instances := map id | id in o.instances.Keys + Prepared(host, d, o) :: RefreshInstance(host, d, o, id))
  }

  function Normalize(host: Host, d: Desired, o: Observed): Observed { Refresh(host, d, Adopt(host, d, o)) }

  // ----- What each action does when it succeeds -----

  function AfterBuild(host: Host, o: Observed, tag: Tag): Observed
    requires tag in o.releases
  {
    o.(releases := o.releases[tag := o.releases[tag].(
      build := Passed, qualification := Pending, deployment := Pending,
      manifest := Some(host.manifest(tag)), root := Some(host.root(tag)))])
  }

  function AfterStart(host: Host, o: Observed, tag: Tag): Observed
    requires tag in o.releases
  {
    var r := o.releases[tag];
    if r.instance.Some? then
      if r.instance.value in o.instances
      then o.(instances := o.instances[r.instance.value := o.instances[r.instance.value].(
                status := Running, evidence := Some(host.evidence(r.instance.value)), draining := None)])
      else o
    else o.(releases := o.releases[tag := r.(
              endpoint := if r.endpoint.Some? then r.endpoint
                  else Some(host.endpoint(tag)), feed := Running, draining := None)])
  }

  function AfterCheck(o: Observed, tag: Tag): Observed
    requires tag in o.releases
  {
    o.(releases := o.releases[tag := o.releases[tag].(deployment := Passed)])
  }

  function AfterQualify(o: Observed, tag: Tag): Observed
    requires tag in o.releases
  {
    o.(releases := o.releases[tag := o.releases[tag].(deployment := Passed, qualification := Passed)])
  }

  /** The daemons that the new generation routes to. */
  function ProviderIds(bindings: map<Tag, Binding>): set<InstanceId> {
    set tag | tag in bindings && bindings[tag].provider.Some? :: bindings[tag].provider.value
  }

  function ActivateRelease(host: Host, d: Desired, o: Observed, bindings: map<Tag, Binding>, force: Option<Tag>,
                           tag: Tag): Release
    requires tag in o.releases
  {
    var r := o.releases[tag];
    var bypassed := tag == d.production && o.production != Some(d.production) && force == Some(d.production);
    var r1 := if bypassed then r.(qualification := Bypassed) else r;
    if tag in bindings
    then r1.(provider := bindings[tag].provider, reason := Some(bindings[tag].reason), deployment := Pending)
    else if r.feed.Running? && r.draining.None? then r1.(draining := Some(host.deadline))
    else r1
  }

  /** Serving daemons are freed of any drain; all others are stopped, and removed once no release needs them. */
  function ActivateInstance(host: Host, d: Desired, o: Observed, bindings: map<Tag, Binding>, id: InstanceId): Instance
    requires id in o.instances
  {
    var i := o.instances[id];
    if id in ProviderIds(bindings) then i.(draining := None)
    else if i.status.Removed? then i
    else
      var kept := exists tag | tag in Tags(d) && tag in o.releases :: o.releases[tag].instance == Some(id);
      i.(status := if !kept && host.expired(id) then Removed else Stopped, evidence := None,
         draining := if i.draining.Some? then i.draining else Some(host.deadline))
  }

  function AfterActivate(host: Host, compare: Comparison, d: Desired, o: Observed, force: Option<Tag>): Observed {
    var s := Serving(d, o);
    var bindings := Resolve(compare, s, o);
    Observed(map tag | tag in o.releases :: ActivateRelease(host, d, o, bindings, force, tag),
             map id | id in o.instances :: ActivateInstance(host, d, o, bindings, id),
             Some(d.production), s.staging, d.sunset, o.generation + 1, false, true)
  }

  function Act(host: Host, compare: Comparison, d: Desired, o: Observed, force: Option<Tag>, a: Action): Observed
    requires a.Activate? || a.tag in o.releases
  {
    match a
    case BuildRelease(tag) => AfterBuild(host, o, tag)
    case StartFeeds(tag) => AfterStart(host, o, tag)
    case Activate => AfterActivate(host, compare, d, o, force)
    case Qualify(tag) => AfterQualify(o, tag)
    case CheckDeployment(tag) => AfterCheck(o, tag)
  }

  // ----- What the actions on one release change -----

  /** Nothing but this release's record has changed. */
  ghost predicate OnlyRelease(o: Observed, n: Observed, tag: Tag) {
    && n == o.(releases := n.releases) && n.releases.Keys == o.releases.Keys
    && forall u | u in o.releases && u != tag :: n.releases[u] == o.releases[u]
  }

  /** Nothing but this daemon's record has changed. */
  ghost predicate OnlyDaemon(o: Observed, n: Observed, id: InstanceId) {
    && n == o.(instances := n.instances) && n.instances.Keys == o.instances.Keys
    && forall u | u in o.instances && u != id :: n.instances[u] == o.instances[u]
  }

  /** A build records what was built, and whatever was qualified or checked before no longer counts. */
  ghost predicate BuiltAnew(host: Host, r: Release, r': Release, tag: Tag) {
    && r'.build.Passed? && r'.qualification.Pending? && r'.deployment.Pending?
    && r'.manifest == Some(host.manifest(tag)) && r'.root == Some(host.root(tag))
    && r == r'.(build := r.build, qualification := r.qualification, deployment := r.deployment,
                manifest := r.manifest, root := r.root)
  }

  /** The legacy listener runs where it ran before, if it did, and no longer drains. */
  ghost predicate ListenerUp(host: Host, r: Release, r': Release, tag: Tag) {
    && r'.feed.Running? && r'.draining.None?
    && r'.endpoint == (if r.endpoint.Some? then r.endpoint else Some(host.endpoint(tag)))
    && r == r'.(feed := r.feed, draining := r.draining, endpoint := r.endpoint)
  }

  /** The daemon runs, no longer drains, and what it says of itself is recorded. */
  ghost predicate DaemonUp(host: Host, i: Instance, i': Instance, id: InstanceId) {
    && i'.status.Running? && i'.draining.None? && i'.evidence == Some(host.evidence(id))
    && i == i'.(status := i.status, draining := i.draining, evidence := i.evidence)
  }

  /** Starting a release's feeds starts its own daemon, or the legacy listener of a release without one. */
  ghost predicate FeedsUp(host: Host, o: Observed, n: Observed, tag: Tag)
    requires tag in o.releases
  {
    var key := o.releases[tag].instance;
    if key.None? then
      OnlyRelease(o, n, tag) && ListenerUp(host, o.releases[tag], n.releases[tag], tag)
    else if key.value in o.instances then
      OnlyDaemon(o, n, key.value) && DaemonUp(host, o.instances[key.value], n.instances[key.value], key.value)
    else n == o
  }

  // ----- What a refresh changes -----

  /** A desired and built release is described anew, and keeps its daemon if its publication describes none. */
  ghost predicate ReleaseRefreshed(host: Host, d: Desired, o: Observed, tag: Tag, r': Release)
    requires tag in o.releases
  {
    var r := o.releases[tag];
    && r == r'.(requirements := r.requirements, instance := r.instance)
    && if tag in Tags(d) && r.build.Passed?
       then && r'.requirements == host.requirements(tag)
            && r'.instance == if host.requirements(tag).Some? then Some(host.instance(tag)) else r.instance
       else r' == r
  }

  /** Some desired and built release has this daemon described in its publication. */
  ghost predicate Called(host: Host, d: Desired, o: Observed, id: InstanceId) {
    exists tag | tag in Tags(d) && tag in o.releases ::
      o.releases[tag].build.Passed? && host.requirements(tag).Some? && host.instance(tag) == id
  }

  /** A called daemon that is unknown or was removed gets a new record; whatever was started is found up. */
  ghost predicate DaemonRefreshed(host: Host, d: Desired, o: Observed, id: InstanceId, i': Instance) {
    && (id in o.instances || Called(host, d, o, id))
    && var i := if id in o.instances && !(Called(host, d, o, id) && o.instances[id].status.Removed?)
                then o.instances[id] else host.launch(id);
    && i == i'.(status := i.status, evidence := i.evidence)
    && if i.status.Running? || i.status.Unavailable?
       then i'.status.Running? && i'.evidence == Some(host.evidence(id)) else i' == i
  }

  ghost predicate RefreshedSo(host: Host, d: Desired, o: Observed, n: Observed) {
    && n == o.(releases := n.releases, instances := n.instances) && n.releases.Keys == o.releases.Keys
    && (forall tag | tag in o.releases :: ReleaseRefreshed(host, d, o, tag, n.releases[tag]))
    && (forall id | id in o.instances || Called(host, d, o, id) :: id in n.instances)
    && (forall id | id in n.instances :: DaemonRefreshed(host, d, o, id, n.instances[id]))
  }

  lemma CalledIff(host: Host, d: Desired, o: Observed, id: InstanceId)
    ensures Called(host, d, o, id) <==> id in Prepared(host, d, o)
  {}

  lemma RefreshMeans(host: Host, d: Desired, o: Observed)
    ensures RefreshedSo(host, d, o, Refresh(host, d, o))
  {
    var n := Refresh(host, d, o);
    forall tag | tag in o.releases ensures ReleaseRefreshed(host, d, o, tag, n.releases[tag]) {}
    forall id | id in n.instances ensures DaemonRefreshed(host, d, o, id, n.instances[id]) {
      CalledIff(host, d, o, id);
    }
    forall id | Called(host, d, o, id) ensures id in n.instances { CalledIff(host, d, o, id); }
  }

  // ----- What an activation changes -----

  /** The release has a channel from now on: staging only if it is built and its own daemon is up. */
  ghost predicate HasChannel(d: Desired, o: Observed, tag: Tag) {
    tag == d.production || tag in d.sunset || (d.staging == Some(tag) && Built(o, tag) && Ready(o, tag))
  }

  /** Some served release is routed to this daemon. */
  ghost predicate Routed(d: Desired, o: Observed, n: Observed, id: InstanceId) {
    exists tag | tag in n.releases :: HasChannel(d, o, tag) && n.releases[tag].provider == Some(id)
  }

  /** Some desired release has this daemon as its own. */
  ghost predicate Wanted(d: Desired, o: Observed, id: InstanceId) {
    exists tag | tag in o.releases ::
      (tag == d.production || tag in d.sunset || d.staging == Some(tag)) && o.releases[tag].instance == Some(id)
  }

  /**
   A release's record: served ones are routed to their own or production's daemon and are checked anew, of the
   others those still running begin to drain unless they do already, and a forced new production is marked so.
   */
  ghost predicate ReleaseSwitched(host: Host, d: Desired, o: Observed, force: Option<Tag>, tag: Tag, r': Release)
    requires tag in o.releases && d.production in o.releases
  {
    var r := o.releases[tag];
    && r' == r.(qualification := r'.qualification, provider := r'.provider, reason := r'.reason,
                deployment := r'.deployment, draining := r'.draining)
    && r'.qualification == (if tag == d.production && force == Some(tag) && o.production != Some(tag) then Bypassed
                            else r.qualification)
    && r'.draining == (if !HasChannel(d, o, tag) && r.feed.Running? && r.draining.None? then Some(host.deadline)
                       else r.draining)
    && if HasChannel(d, o, tag)
       then && r'.deployment.Pending? && r'.reason.Some?
            && r'.provider == if r'.reason.value.SharedWith? then o.releases[d.production].instance else r.instance
       else r'.deployment == r.deployment && r'.provider == r.provider && r'.reason == r.reason
  }

  /** A daemon's record: one that is routed to no longer drains, any other is stopped, and removed once not needed. */
  ghost predicate DaemonSwitched(host: Host, d: Desired, o: Observed, n: Observed, id: InstanceId, i': Instance)
    requires id in o.instances
  {
    var i := o.instances[id];
    if Routed(d, o, n, id) then i' == i.(draining := None)
    else if i.status.Removed? then i' == i
    else
      && i' == i.(status := i'.status, evidence := None, draining := i'.draining)
      && i'.status == (if host.expired(id) && !Wanted(d, o, id) then Removed else Stopped)
      && i'.draining == (if i.draining.Some? then i.draining else Some(host.deadline))
  }

  ghost predicate ChannelsSwitched(d: Desired, o: Observed, n: Observed) {
    && n.production == Some(d.production) && n.sunset == d.sunset
    && (forall tag :: n.staging == Some(tag) <==> d.staging == Some(tag) && Built(o, tag) && Ready(o, tag))
    && n.generation == o.generation + 1 && !n.dirty && n.gcPending
  }

  ghost predicate ReleasesSwitched(host: Host, d: Desired, o: Observed, n: Observed, force: Option<Tag>)
    requires d.production in o.releases
  {
    && n.releases.Keys == o.releases.Keys
    && forall tag | tag in o.releases :: ReleaseSwitched(host, d, o, force, tag, n.releases[tag])
  }

  ghost predicate DaemonsSwitched(host: Host, d: Desired, o: Observed, n: Observed) {
    && n.instances.Keys == o.instances.Keys
    && forall id | id in o.instances :: DaemonSwitched(host, d, o, n, id, n.instances[id])
  }

  ghost predicate SwitchedOver(host: Host, d: Desired, o: Observed, n: Observed, force: Option<Tag>)
    requires d.production in o.releases
  {
    ChannelsSwitched(d, o, n) && ReleasesSwitched(host, d, o, n, force) && DaemonsSwitched(host, d, o, n)
  }

  lemma HasChannelIff(d: Desired, o: Observed, tag: Tag)
    ensures HasChannel(d, o, tag) <==> tag in Tags(Serving(d, o))
  {}

  lemma SwitchesRelease(host: Host, compare: Comparison, d: Desired, o: Observed, force: Option<Tag>, tag: Tag)
    requires tag in o.releases && d.production in o.releases
    ensures ReleaseSwitched(host, d, o, force, tag, AfterActivate(host, compare, d, o, force).releases[tag])
  {
    HasChannelIff(d, o, tag);
  }

  lemma RoutedIff(host: Host, compare: Comparison, d: Desired, o: Observed, force: Option<Tag>, id: InstanceId)
    requires Tags(Serving(d, o)) <= o.releases.Keys
    ensures Routed(d, o, AfterActivate(host, compare, d, o, force), id)
       <==> id in ProviderIds(Resolve(compare, Serving(d, o), o))
  {
    var bindings, n := Resolve(compare, Serving(d, o), o), AfterActivate(host, compare, d, o, force);
    if Routed(d, o, n, id) {
      var tag :| tag in n.releases && HasChannel(d, o, tag) && n.releases[tag].provider == Some(id);
      HasChannelIff(d, o, tag);
      assert bindings[tag].provider == Some(id);
    }
    if id in ProviderIds(bindings) {
      var tag :| tag in bindings && bindings[tag].provider == Some(id);
      HasChannelIff(d, o, tag);
      assert n.releases[tag].provider == Some(id);
    }
  }

  lemma SwitchesDaemon(host: Host, compare: Comparison, d: Desired, o: Observed, force: Option<Tag>, id: InstanceId)
    requires Tags(Serving(d, o)) <= o.releases.Keys && id in o.instances
    ensures var n := AfterActivate(host, compare, d, o, force); DaemonSwitched(host, d, o, n, id, n.instances[id])
  {
    RoutedIff(host, compare, d, o, force, id);
    assert forall tag ::
        tag in Tags(d) <==> tag == d.production || tag in d.sunset || d.staging == Some(tag);
  }

  lemma SwitchesReleases(host: Host, compare: Comparison, d: Desired, o: Observed, force: Option<Tag>)
    requires d.production in o.releases
    ensures ReleasesSwitched(host, d, o, AfterActivate(host, compare, d, o, force), force)
  {
    forall tag | tag in o.releases
      ensures ReleaseSwitched(host, d, o, force, tag, AfterActivate(host, compare, d, o, force).releases[tag])
    {
      SwitchesRelease(host, compare, d, o, force, tag);
    }
  }

  lemma SwitchesDaemons(host: Host, compare: Comparison, d: Desired, o: Observed, force: Option<Tag>)
    requires Tags(Serving(d, o)) <= o.releases.Keys
    ensures DaemonsSwitched(host, d, o, AfterActivate(host, compare, d, o, force))
  {
    var n := AfterActivate(host, compare, d, o, force);
    forall id | id in o.instances ensures DaemonSwitched(host, d, o, n, id, n.instances[id]) {
      SwitchesDaemon(host, compare, d, o, force, id);
    }
  }

  /** Everything an activation changes, read off the observations before and after it. */
  lemma ActivationSwitchesOver(host: Host, compare: Comparison, d: Desired, o: Observed, force: Option<Tag>)
    requires Tags(Serving(d, o)) <= o.releases.Keys
    ensures SwitchedOver(host, d, o, AfterActivate(host, compare, d, o, force), force)
  {
    SwitchesReleases(host, compare, d, o, force);
    SwitchesDaemons(host, compare, d, o, force);
  }

  // ----- What stays true of the observations -----

  /** The release's own daemon record exists, is its own, and can be described again. */
  ghost predicate OwnInstance(host: Host, o: Observed, tag: Tag)
    requires tag in o.releases
  {
    var r := o.releases[tag];
    && (r.endpoint.Some? ==> r.endpoint.value != "")
    && (r.instance.Some? ==>
          && r.instance.value in o.instances && o.instances[r.instance.value].tag == tag
          && o.instances[r.instance.value].endpoint != "" && host.requirements(tag).Some?)
    && (host.instance(tag) in o.instances ==>
          o.instances[host.instance(tag)].tag == tag && o.instances[host.instance(tag)].endpoint != "")
  }

  ghost predicate Consistent(host: Host, d: Desired, o: Observed) {
    RootedBuilds(o) && forall tag | tag in Tags(d) :: tag in o.releases && OwnInstance(host, o, tag)
  }

  /** A built release's daemon is the one its publication describes. */
  ghost predicate Described(host: Host, o: Observed, tag: Tag)
    requires tag in o.releases
  {
    var r := o.releases[tag];
    if host.requirements(tag).Some?
    then r.instance == Some(host.instance(tag)) && r.requirements == host.requirements(tag)
         && host.instance(tag) in o.instances && !o.instances[host.instance(tag)].status.Removed?
    else r.instance.None? && r.requirements.None?
  }

  ghost predicate Probed(host: Host, id: InstanceId, i: Instance) {
    !i.status.Unavailable? && (i.status.Running? ==> i.evidence == Some(host.evidence(id)))
  }

  /** Another refresh would change nothing. */
  ghost predicate Refreshed(host: Host, d: Desired, o: Observed) {
    && Consistent(host, d, o)
    && (forall tag | tag in Tags(d) && Built(o, tag) :: Described(host, o, tag))
    && (forall id | id in o.instances :: Probed(host, id, o.instances[id]))
  }

  /** What planning sees: neither an adoption nor a refresh would change anything. */
  ghost predicate Settled(host: Host, d: Desired, o: Observed) { Refreshed(host, d, o) && !Adoptable(host, d, o) }

  /** A daemon record keeps its release, even when a removed one is prepared anew. */
  lemma RefreshKeepsTag(host: Host, d: Desired, o: Observed, id: InstanceId)
    requires Sane(host) && Consistent(host, d, o) && id in o.instances && o.instances[id].endpoint != ""
    ensures var i := RefreshInstance(host, d, o, id); i.tag == o.instances[id].tag && i.endpoint != ""
  {
    if id in Prepared(host, d, o) {
      var u :| u in Tags(d) && Describes(host, d, o, u) && host.instance(u) == id;
      assert OwnInstance(host, o, u);
    }
  }

  lemma LaunchedTag(host: Host, d: Desired, o: Observed, tag: Tag)
    requires Sane(host) && host.instance(tag) !in o.instances
    ensures var i := RefreshInstance(host, d, o, host.instance(tag)); i.tag == tag && i.endpoint != ""
  {}

  lemma RefreshOwn(host: Host, d: Desired, o: Observed, tag: Tag)
    requires Sane(host) && Consistent(host, d, o) && tag in Tags(d)
    ensures var n := Refresh(host, d, o); tag in n.releases && OwnInstance(host, n, tag)
  {
    var n := Refresh(host, d, o);
    assert OwnInstance(host, o, tag);
    var own := host.instance(tag);
    if own in o.instances { RefreshKeepsTag(host, d, o, own); } else { LaunchedTag(host, d, o, tag); }
    assert own in n.instances ==> n.instances[own] == RefreshInstance(host, d, o, own);
    if Describes(host, d, o, tag) {
      assert own in Prepared(host, d, o);
    } else if o.releases[tag].instance.Some? {
      RefreshKeepsTag(host, d, o, o.releases[tag].instance.value);
    }
  }

  lemma RefreshDescribed(host: Host, d: Desired, o: Observed, tag: Tag)
    requires Sane(host) && Consistent(host, d, o) && tag in Tags(d) && Built(o, tag)
    ensures Described(host, Refresh(host, d, o), tag)
  {
    assert OwnInstance(host, o, tag);
    if Describes(host, d, o, tag) {
      assert host.instance(tag) in Prepared(host, d, o);
      assert !RefreshInstance(host, d, o, host.instance(tag)).status.Removed?;
    }
  }

  /** Refreshing touches neither builds nor the channels. */
  lemma RefreshFrame(host: Host, d: Desired, o: Observed)
    ensures var n := Refresh(host, d, o);
            && n == o.(releases := n.releases, instances := n.instances) && n.releases.Keys == o.releases.Keys
            && forall tag | tag in o.releases ::
                 n.releases[tag] == o.releases[tag].(instance := n.releases[tag].instance,
                     requirements := n.releases[tag].requirements)
  {}

  lemma RefreshIsThorough(host: Host, d: Desired, o: Observed)
    requires Sane(host) && Consistent(host, d, o)
    ensures Refreshed(host, d, Refresh(host, d, o))
  {
    var n := Refresh(host, d, o);
    RefreshFrame(host, d, o);
    forall tag | tag in Tags(d) ensures tag in n.releases && OwnInstance(host, n, tag) {
      RefreshOwn(host, d, o, tag);
    }
    forall tag | tag in Tags(d) && Built(n, tag) ensures Described(host, n, tag) {
      RefreshDescribed(host, d, o, tag);
    }
    forall id | id in n.instances ensures Probed(host, id, n.instances[id]) {
      RefreshProbes(host, d, o, id);
    }
  }

  lemma RefreshProbes(host: Host, d: Desired, o: Observed, id: InstanceId)
    requires Sane(host) && id in Refresh(host, d, o).instances
    ensures Probed(host, id, Refresh(host, d, o).instances[id])
  {}

  lemma RefreshedIsFixed(host: Host, d: Desired, n: Observed)
    requires Refreshed(host, d, n)
    ensures Refresh(host, d, n) == n
  {
    forall tag | tag in n.releases ensures RefreshRelease(host, d, n, tag) == n.releases[tag] {}
    assert Prepared(host, d, n) <= n.instances.Keys;
    forall id | id in n.instances ensures RefreshInstance(host, d, n, id) == n.instances[id] {
      if id in Prepared(host, d, n) {
        var tag :| tag in Tags(d) && Describes(host, d, n, tag) && host.instance(tag) == id;
        assert Described(host, n, tag);
      }
    }
    assert (map tag | tag in n.releases :: RefreshRelease(host, d, n, tag)) == n.releases;
    assert (map id | id in n.instances.Keys + Prepared(host, d, n) :: RefreshInstance(host, d, n, id)) == n.instances;
  }

  lemma RecordKeepsOwn(host: Host, n: Observed, r: Release, tag: Tag, u: Tag)
    requires tag in n.releases && u in n.releases && OwnInstance(host, n, u)
    requires r.instance == n.releases[tag].instance && (r.endpoint.Some? ==> r.endpoint.value != "")
    ensures OwnInstance(host, n.(releases := n.releases[tag := r]), u)
  {}

  lemma InstanceKeepsOwn(host: Host, n: Observed, id: InstanceId, i: Instance, u: Tag)
    requires id in n.instances && i.tag == n.instances[id].tag && i.endpoint == n.instances[id].endpoint
    requires u in n.releases && OwnInstance(host, n, u)
    ensures OwnInstance(host, n.(instances := n.instances[id := i]), u)
  {}

  /** Changing one release's verdicts or legacy listener keeps the observations consistent. */
  lemma RecordKeepsConsistent(host: Host, d: Desired, n: Observed, r: Release, tag: Tag)
    requires Consistent(host, d, n) && tag in n.releases
    requires r.instance == n.releases[tag].instance && (r.endpoint.Some? ==> r.endpoint.value != "")
    requires r.build.Passed? ==> r.manifest.Some? && r.root.Some?
    ensures Consistent(host, d, n.(releases := n.releases[tag := r]))
  {
    var n1 := n.(releases := n.releases[tag := r]);
    forall u | u in Tags(d) ensures u in n1.releases && OwnInstance(host, n1, u) { RecordKeepsOwn(host, n, r, tag, u); }
    forall u | Built(n1, u)
      ensures n1.releases[u].manifest.Some? && n1.releases[u].root.Some?
    {
      assert u == tag || Built(n, u);
    }
  }

  lemma InstanceKeepsConsistent(host: Host, d: Desired, n: Observed, id: InstanceId, i: Instance)
    requires Consistent(host, d, n)
    requires id in n.instances && i.tag == n.instances[id].tag && i.endpoint == n.instances[id].endpoint
    ensures Consistent(host, d, n.(instances := n.instances[id := i]))
  {
    var n1 := n.(instances := n.instances[id := i]);
    forall u | u in Tags(d)
      ensures u in n1.releases && OwnInstance(host, n1, u)
    {
      InstanceKeepsOwn(host, n, id, i, u);
    }
    assert forall u | Built(n1, u) :: Built(n, u);
  }

  /** A change of one record that no refresh reads or rewrites leaves nothing to refresh. */
  lemma RecordStaysRefreshed(host: Host, d: Desired, n: Observed, r: Release, tag: Tag)
    requires Refreshed(host, d, n) && tag in n.releases
    requires r.instance == n.releases[tag].instance && (r.endpoint.Some? ==> r.endpoint.value != "")
    requires r.requirements == n.releases[tag].requirements && r.build == n.releases[tag].build
    requires r.manifest == n.releases[tag].manifest && r.root == n.releases[tag].root
    ensures Refreshed(host, d, n.(releases := n.releases[tag := r]))
  {
    var n1 := n.(releases := n.releases[tag := r]);
    assert r.build.Passed? ==> Built(n, tag);
    RecordKeepsConsistent(host, d, n, r, tag);
    forall u | u in Tags(d) && Built(n1, u)
      ensures Described(host, n1, u)
    {
      assert Built(n, u) && Described(host, n, u);
    }
  }

  /** Which releases are served does not matter to a refresh. */
  lemma ChannelsDoNotMatter(host: Host, d: Desired, o: Observed, o': Observed)
    requires Consistent(host, d, o) && o'.releases == o.releases && o'.instances == o.instances
    ensures Consistent(host, d, o')
  {
    forall tag | tag in Tags(d)
      ensures tag in o'.releases && OwnInstance(host, o', tag)
    {
      assert OwnInstance(host, o, tag);
    }
    assert forall tag | Built(o', tag) :: Built(o, tag);
  }

  lemma AdoptStaysConsistent(host: Host, d: Desired, o: Observed)
    requires Consistent(host, d, o)
    ensures Consistent(host, d, Adopt(host, d, o)) && !Adoptable(host, d, Adopt(host, d, o))
  {
    if Adoptable(host, d, o) {
      var r := o.releases[d.production].(qualification := Passed);
      assert OwnInstance(host, o, d.production) && Built(o, d.production);
      RecordKeepsConsistent(host, d, o, r, d.production);
      ChannelsDoNotMatter(host, d, o.(releases := o.releases[d.production := r]), Adopt(host, d, o));
    }
  }

  lemma AdoptStaysRefreshed(host: Host, d: Desired, o: Observed)
    requires Refreshed(host, d, o)
    ensures Settled(host, d, Adopt(host, d, o)) && Normalize(host, d, o) == Adopt(host, d, o)
  {
    var o1 := Adopt(host, d, o);
    AdoptStaysConsistent(host, d, o);
    forall tag | tag in Tags(d) && Built(o1, tag)
      ensures Described(host, o1, tag)
    {
      assert Built(o, tag) && Described(host, o, tag);
    }
    RefreshedIsFixed(host, d, o1);
  }

  /** Every turn of the loop plans on a settled state. */
  lemma NormalizeSettles(host: Host, d: Desired, o: Observed)
    requires Sane(host) && Consistent(host, d, o)
    ensures Settled(host, d, Normalize(host, d, o))
  {
    var o1 := Adopt(host, d, o);
    AdoptStaysConsistent(host, d, o);
    RefreshIsThorough(host, d, o1);
    assert !Adoptable(host, d, Refresh(host, d, o1)) by { RefreshFrame(host, d, o1); }
  }
}
