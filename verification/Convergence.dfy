/**
 What each action of the loop in tools/reconcile_prod_releases.py leaves alone, and how one turn of
 the loop leads to the next.
 */
module Convergence {
  import opened Wrappers
  import opened Releases
  import opened Reconcile

  // ----- An action on one release leaves the others alone -----

  /** Nothing that bindings depend on differs for this release. */
  ghost predicate SameFor(n: Observed, n': Observed, tag: Tag) {
    tag in n.releases && tag in n'.releases && n'.releases[tag] == n.releases[tag]
    && InstanceOf(n', tag) == InstanceOf(n, tag)
  }

  /** The release differs at most in its verdicts, which no binding depends on. */
  ghost predicate Alike(n: Observed, n': Observed, tag: Tag) {
    && tag in n.releases && tag in n'.releases && InstanceOf(n', tag) == InstanceOf(n, tag)
    && n'.releases[tag]
         == n.releases[tag].(qualification := n'.releases[tag].qualification, deployment := n'.releases[tag].deployment)
  }

  lemma VerdictsStaySettled(host: Host, d: Desired, n: Observed, tag: Tag)
    requires Settled(host, d, n) && tag in Tags(d)
    ensures Settled(host, d, AfterQualify(n, tag)) && Settled(host, d, AfterCheck(n, tag))
  {
    assert OwnInstance(host, n, tag);
    RecordStaysRefreshed(host, d, n, n.releases[tag].(deployment := Passed, qualification := Passed), tag);
    RecordStaysRefreshed(host, d, n, n.releases[tag].(deployment := Passed), tag);
  }

  lemma InstanceStaysRefreshed(host: Host, d: Desired, n: Observed, id: InstanceId, i: Instance)
    requires Refreshed(host, d, n) && Probed(host, id, i) && !i.status.Removed?
    requires id in n.instances && i.tag == n.instances[id].tag && i.endpoint == n.instances[id].endpoint
    ensures Refreshed(host, d, n.(instances := n.instances[id := i]))
  {
    var n1 := n.(instances := n.instances[id := i]);
    InstanceKeepsConsistent(host, d, n, id, i);
    forall u | u in Tags(d) && Built(n1, u)
      ensures Described(host, n1, u)
    {
      assert Built(n, u) && Described(host, n, u);
    }
  }

  lemma StartStaysRefreshed(host: Host, d: Desired, n: Observed, tag: Tag)
    requires Refreshed(host, d, n) && tag in Tags(d) && host.endpoint(tag) != ""
    ensures Refreshed(host, d, AfterStart(host, n, tag))
  {
    assert OwnInstance(host, n, tag);
    var r := n.releases[tag];
    if r.instance.Some? {
      InstanceStaysRefreshed(host, d, n, r.instance.value, n.instances[r.instance.value].(
        status := Running, evidence := Some(host.evidence(r.instance.value)), draining := None));
    } else {
      RecordStaysRefreshed(host, d, n, r.(
        endpoint := if r.endpoint.Some? then r.endpoint
            else Some(host.endpoint(tag)), feed := Running, draining := None), tag);
    }
  }

  lemma BuildKeepsConsistent(host: Host, d: Desired, n: Observed, tag: Tag)
    requires Consistent(host, d, n) && tag in Tags(d)
    ensures Consistent(host, d, AfterBuild(host, n, tag))
  {
    var n1 := AfterBuild(host, n, tag);
    forall u | u in Tags(d) ensures OwnInstance(host, n1, u) { assert OwnInstance(host, n, u); }
    forall u | Built(n1, u)
      ensures n1.releases[u].manifest.Some? && n1.releases[u].root.Some?
    {
      assert u == tag || Built(n, u);
    }
  }

  /** A daemon record of a desired release is prepared only by that release, and is then not removed. */
  lemma PreparedIsOwn(host: Host, d: Desired, o: Observed, u: Tag)
    requires Consistent(host, d, o) && u in Tags(d) && o.releases[u].instance.Some?
    requires o.releases[u].instance.value in Prepared(host, d, o)
    ensures Built(o, u) && o.releases[u].instance.value == host.instance(u)
  {
    var id := o.releases[u].instance.value;
    var w :| w in Tags(d) && Describes(host, d, o, w) && host.instance(w) == id;
    assert OwnInstance(host, o, w) && OwnInstance(host, o, u);
  }

  /** A refresh leaves a release alone that was settled before. */
  lemma RefreshLeaves(host: Host, d: Desired, o: Observed, u: Tag)
    requires Consistent(host, d, o) && u in Tags(d)
    requires Built(o, u) ==> Described(host, o, u)
    requires InstanceOf(o, u).Some? ==> Probed(host, o.releases[u].instance.value, InstanceOf(o, u).value)
    ensures SameFor(o, Refresh(host, d, o), u)
  {
    assert OwnInstance(host, o, u);
    if o.releases[u].instance.Some? && o.releases[u].instance.value in Prepared(host, d, o) {
      PreparedIsOwn(host, d, o, u);
    }
  }

  lemma BuildLeaves(host: Host, d: Desired, n: Observed, tag: Tag, u: Tag)
    requires Settled(host, d, n) && tag in Tags(d) && u in Tags(d) && u != tag
    ensures SameFor(n, Normalize(host, d, AfterBuild(host, n, tag)), u)
  {
    var n1 := AfterBuild(host, n, tag);
    BuildKeepsConsistent(host, d, n, tag);
    var o := Adopt(host, d, n1);
    AdoptStaysConsistent(host, d, n1);
    assert o.releases[u] == n.releases[u] && o.instances == n.instances;
    assert Built(n, u) ==> Described(host, n, u);
    RefreshLeaves(host, d, o, u);
  }

  lemma AdoptLeaves(host: Host, d: Desired, o: Observed, u: Tag)
    requires u in o.releases && (u != d.production || !Adoptable(host, d, o))
    ensures SameFor(o, Adopt(host, d, o), u)
  {}

  lemma StartTouchesOne(host: Host, n: Observed, tag: Tag, u: Tag)
    requires tag in n.releases && u in n.releases && OwnInstance(host, n, tag) && OwnInstance(host, n, u) && u != tag
    ensures SameFor(n, AfterStart(host, n, tag), u)
  {}

  lemma StartLeaves(host: Host, d: Desired, n: Observed, tag: Tag, u: Tag)
    requires Settled(host, d, n) && tag in Tags(d) && u in Tags(d) && u != tag && host.endpoint(tag) != ""
    ensures SameFor(n, Normalize(host, d, AfterStart(host, n, tag)), u)
  {
    var n1 := AfterStart(host, n, tag);
    StartStaysRefreshed(host, d, n, tag);
    AdoptStaysRefreshed(host, d, n1);
    assert SameFor(n, n1, u) by {
      assert OwnInstance(host, n, tag) && OwnInstance(host, n, u);
      StartTouchesOne(host, n, tag, u);
    }
    AdoptLeaves(host, d, n1, u);
  }

  // ----- Activation -----

  /** What an activation never rewrites in a release record. */
  ghost predicate SameRelease(r: Release, r': Release) {
    r' == r.(qualification := r'.qualification, deployment := r'.deployment, provider := r'.provider,
        reason := r'.reason, draining := r'.draining)
  }

  lemma ActivateKeys(host: Host, compare: Comparison, d: Desired, n: Observed, force: Option<Tag>)
    ensures var n1 := AfterActivate(host, compare, d, n, force);
            n1.releases.Keys == n.releases.Keys && n1.instances.Keys == n.instances.Keys
  {}

  lemma ActivateRecord(host: Host, compare: Comparison, d: Desired, n: Observed, force: Option<Tag>, u: Tag)
    requires u in n.releases
    ensures var n1 := AfterActivate(host, compare, d, n, force);
            u in n1.releases && SameRelease(n.releases[u], n1.releases[u])
  {}

  lemma ActivateDaemon(host: Host, compare: Comparison, d: Desired, n: Observed, force: Option<Tag>, id: InstanceId)
    requires id in n.instances
    ensures var n1 := AfterActivate(host, compare, d, n, force);
            id in n1.instances && n1.instances[id].tag == n.instances[id].tag
            && n1.instances[id].endpoint == n.instances[id].endpoint
  {}

  lemma ActivateOwn(host: Host, compare: Comparison, d: Desired, n: Observed, force: Option<Tag>, u: Tag)
    requires u in n.releases && OwnInstance(host, n, u)
    ensures var n1 := AfterActivate(host, compare, d, n, force); u in n1.releases && OwnInstance(host, n1, u)
  {
    ActivateKeys(host, compare, d, n, force);
    ActivateRecord(host, compare, d, n, force, u);
    if n.releases[u].instance.Some? { ActivateDaemon(host, compare, d, n, force, n.releases[u].instance.value); }
    if host.instance(u) in n.instances { ActivateDaemon(host, compare, d, n, force, host.instance(u)); }
  }

  /** A desired release's daemon may be stopped by an activation, but is not removed. */
  lemma ActivateDescribed(host: Host, compare: Comparison, d: Desired, n: Observed, force: Option<Tag>, u: Tag)
    requires u in Tags(d) && u in n.releases && Described(host, n, u)
    ensures var n1 := AfterActivate(host, compare, d, n, force); u in n1.releases && Described(host, n1, u)
  {
    var n1 := AfterActivate(host, compare, d, n, force);
    ActivateRecord(host, compare, d, n, force, u);
    if host.requirements(u).Some? {
      assert n.releases[u].instance == Some(host.instance(u));
    }
  }

  lemma ActivateProbed(host: Host, compare: Comparison, d: Desired, n: Observed, force: Option<Tag>, id: InstanceId)
    requires id in n.instances && Probed(host, id, n.instances[id])
    ensures Probed(host, id, AfterActivate(host, compare, d, n, force).instances[id])
  {}

  lemma ActivateKeepsConsistent(host: Host, compare: Comparison, d: Desired, n: Observed, force: Option<Tag>)
    requires Consistent(host, d, n)
    ensures Consistent(host, d, AfterActivate(host, compare, d, n, force))
  {
    var n1 := AfterActivate(host, compare, d, n, force);
    forall u | u in Tags(d)
      ensures u in n1.releases && OwnInstance(host, n1, u)
    {
      ActivateOwn(host, compare, d, n, force, u);
    }
    forall u | Built(n1, u) ensures n1.releases[u].manifest.Some? && n1.releases[u].root.Some? {
      ActivateKeys(host, compare, d, n, force);
      ActivateRecord(host, compare, d, n, force, u);
      assert Built(n, u);
    }
  }

  lemma ActivateStaysSettled(host: Host, compare: Comparison, d: Desired, n: Observed, force: Option<Tag>)
    requires Settled(host, d, n)
    ensures Settled(host, d, AfterActivate(host, compare, d, n, force))
  {
    var n1 := AfterActivate(host, compare, d, n, force);
    ActivateKeepsConsistent(host, compare, d, n, force);
    forall u | u in Tags(d) && Built(n1, u) ensures Described(host, n1, u) {
      ActivateRecord(host, compare, d, n, force, u);
      assert Built(n, u);
      ActivateDescribed(host, compare, d, n, force, u);
    }
    forall id | id in n1.instances
      ensures Probed(host, id, n1.instances[id])
    {
      ActivateProbed(host, compare, d, n, force, id);
    }
  }

  /** A provider of the new generation is as ready after the switch as before it. */
  lemma ProviderStays(host: Host, compare: Comparison, d: Desired, n: Observed, force: Option<Tag>, tag: Tag)
    requires tag in Tags(Serving(d, n)) && Ready(n, ProviderTag(compare, Serving(d, n), n, tag))
    ensures var n1, p := AfterActivate(host, compare, d, n, force), ProviderTag(compare, Serving(d, n), n, tag);
            Ready(n1, p) && InstanceOf(n1, p) == InstanceOf(n, p)
  {
    var n1, p := AfterActivate(host, compare, d, n, force), ProviderTag(compare, Serving(d, n), n, tag);
    var bindings := Resolve(compare, Serving(d, n), n);
    assert bindings[tag].provider == n.releases[p].instance;
    ActivateRecord(host, compare, d, n, force, p);
    if n.releases[p].instance.Some? {
      assert n.releases[p].instance.value in ProviderIds(bindings);
    }
  }

  lemma ReasonStays(compare: Comparison, d: Desired, n: Observed, n': Observed, tag: Tag)
    requires tag in n.releases && tag in n'.releases && SameRelease(n.releases[tag], n'.releases[tag])
    requires d.production in n.releases && d.production in n'.releases
    requires SameRelease(n.releases[d.production], n'.releases[d.production])
    requires Ready(n, d.production) && Ready(n', d.production)
    requires InstanceOf(n', d.production) == InstanceOf(n, d.production)
    ensures ReasonFor(compare, d, n', tag) == ReasonFor(compare, d, n, tag)
  {}

  lemma ActivationRecordsBinding(host: Host, compare: Comparison, d: Desired, n: Observed, force: Option<Tag>, tag: Tag)
    requires tag in n.releases && tag in Tags(Serving(d, n))
    ensures var n1, b := AfterActivate(host, compare, d, n, force), Resolve(compare, Serving(d, n), n)[tag];
            n1.releases[tag].provider == b.provider && n1.releases[tag].reason == Some(b.reason)
            && n1.releases[tag].deployment.Pending?
  {}

  lemma ProductionStays(host: Host, compare: Comparison, d: Desired, n: Observed, force: Option<Tag>, tag: Tag)
    requires Assigned(d) && FirstWork(compare, d, n, ProductionTags(d)).None? && tag in Tags(Serving(d, n))
    ensures var n1 := AfterActivate(host, compare, d, n, force);
            ReasonFor(compare, d, n1, tag) == ReasonFor(compare, d, n, tag) == ReasonFor(compare, Serving(d, n), n, tag)
  {
    ServedIsReady(compare, d, n, tag);
    ServedIsReady(compare, d, n, d.production);
    ServingProviders(compare, d, n, tag);
    ProviderStays(host, compare, d, n, force, d.production);
    ActivateRecord(host, compare, d, n, force, tag);
    ActivateRecord(host, compare, d, n, force, d.production);
    ReasonStays(compare, d, n, AfterActivate(host, compare, d, n, force), tag);
  }

  /** Every served release keeps its reason and its provider, and its record now says so. */
  lemma ServedIsBound(host: Host, compare: Comparison, d: Desired, n: Observed, force: Option<Tag>, tag: Tag)
    requires Assigned(d) && FirstWork(compare, d, n, ProductionTags(d)).None? && tag in Tags(Serving(d, n))
    ensures var n1 := AfterActivate(host, compare, d, n, force);
            Built(n1, tag) && Ready(n1, ProviderTag(compare, d, n1, tag)) && !BindingChanged(compare, d, n1, tag)
  {
    var n1, s := AfterActivate(host, compare, d, n, force), Serving(d, n);
    var p := ProviderTag(compare, s, n, tag);
    ServedIsReady(compare, d, n, tag);
    ProductionStays(host, compare, d, n, force, tag);
    ProviderStays(host, compare, d, n, force, tag);
    ActivateRecord(host, compare, d, n, force, tag);
    ActivateRecord(host, compare, d, n, force, p);
    ActivationRecordsBinding(host, compare, d, n, force, tag);
  }

  // ----- From one turn of the loop to the next -----

  ghost predicate Good(host: Host, d: Desired, n: Observed) { Sane(host) && Assigned(d) && Settled(host, d, n) }

  /** What the loop plans on after an action. */
  ghost function Next(host: Host, compare: Comparison, d: Desired, n: Observed, force: Option<Tag>, a: Action): Observed
    requires a.Activate? || a.tag in n.releases
  {
    Normalize(host, d, Act(host, compare, d, n, force, a))
  }

  lemma AdoptKeepsReady(host: Host, d: Desired, o: Observed, tag: Tag)
    ensures Ready(Adopt(host, d, o), tag) == Ready(o, tag) && Built(Adopt(host, d, o), tag) == Built(o, tag)
  {}

  lemma SettledIsFixed(host: Host, d: Desired, n: Observed)
    requires Settled(host, d, n)
    ensures Normalize(host, d, n) == n
  {
    AdoptStaysRefreshed(host, d, n);
  }

  lemma ProductionTagsAre(d: Desired, i: nat)
    requires i < |ProductionTags(d)|
    ensures ProductionTags(d)[i] in Tags(d)
    ensures ProductionTags(d)[i] == d.production || ProductionTags(d)[i] in d.sunset
  {}

  lemma VerdictAlike(n: Observed, tag: Tag, u: Tag)
    requires tag in n.releases && u in n.releases
    ensures Alike(n, AfterQualify(n, tag), u) && Alike(n, AfterCheck(n, tag), u)
  {}

  /** A verdict needs no refresh. */
  lemma VerdictNext(host: Host, compare: Comparison, d: Desired, n: Observed, force: Option<Tag>, tag: Tag)
    requires Settled(host, d, n) && tag in Tags(d)
    ensures Next(host, compare, d, n, force, Qualify(tag)) == AfterQualify(n, tag)
    ensures Next(host, compare, d, n, force, CheckDeployment(tag)) == AfterCheck(n, tag)
    ensures forall u | u in Tags(d) :: Alike(n, AfterQualify(n, tag), u) && Alike(n, AfterCheck(n, tag), u)
  {
    VerdictsStaySettled(host, d, n, tag);
    SettledIsFixed(host, d, AfterQualify(n, tag));
    SettledIsFixed(host, d, AfterCheck(n, tag));
    forall u | u in Tags(d)
      ensures Alike(n, AfterQualify(n, tag), u) && Alike(n, AfterCheck(n, tag), u)
    {
      VerdictAlike(n, tag, u);
    }
  }

  lemma ActivateNext(host: Host, compare: Comparison, d: Desired, n: Observed, force: Option<Tag>)
    requires Settled(host, d, n)
    ensures Next(host, compare, d, n, force, Activate) == AfterActivate(host, compare, d, n, force)
  {
    ActivateStaysSettled(host, compare, d, n, force);
    SettledIsFixed(host, d, AfterActivate(host, compare, d, n, force));
  }

  lemma NextSettles(host: Host, compare: Comparison, d: Desired, n: Observed, force: Option<Tag>, a: Action)
    requires Good(host, d, n) && (a.Activate? || a.tag in Tags(d))
    ensures Good(host, d, Next(host, compare, d, n, force, a))
  {
    match a {
      case BuildRelease(tag) => BuildKeepsConsistent(host, d, n, tag);
      case StartFeeds(tag) => StartStaysRefreshed(host, d, n, tag);
      case Activate => ActivateKeepsConsistent(host, compare, d, n, force);
      case Qualify(tag) => VerdictsStaySettled(host, d, n, tag);
      case CheckDeployment(tag) => VerdictsStaySettled(host, d, n, tag);
    }
    NormalizeSettles(host, d, Act(host, compare, d, n, force, a));
  }

  /** The channel fields, which only activations and adoptions write. */
  ghost predicate SameChannels(n: Observed, n': Observed) {
    n'.production == n.production && n'.staging == n.staging && n'.sunset == n.sunset && n'.generation == n.generation
    && n'.dirty == n.dirty
  }

  lemma ServedChannelsStay(host: Host, d: Desired, o: Observed)
    requires !Adoptable(host, d, o)
    ensures SameChannels(o, Normalize(host, d, o))
  {
    RefreshFrame(host, d, o);
  }
}
