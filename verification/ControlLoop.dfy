/** `Controller.reconcile` of tools/reconcile_prod_releases.py and how its runs end. */
module ControlLoop {
  import opened Wrappers
  import opened Releases
  import opened Reconcile
  import opened Convergence
  import opened ActionCount

  // ----- What a plan without an action says -----

  /** Everything the assignment asks for holds, release by release. */
  ghost predicate AsDesired(compare: Comparison, d: Desired, n: Observed) {
    && n.production == Some(d.production) && n.staging == d.staging && n.sunset == d.sunset && n.generation > 0
    && !n.dirty
    && (forall tag | tag in Tags(d) :: Served(compare, d, n, tag))
    && (d.staging.Some? ==> Qualified(n, d.staging.value))
  }

  /** The release is built, its provider up and recorded with the reason for it, and its deployment checked. */
  ghost predicate Served(compare: Comparison, d: Desired, n: Observed, tag: Tag) {
    && tag in n.releases && n.releases[tag].build.Passed? && n.releases[tag].deployment.Passed?
    && var provider := ProviderTag(compare, d, n, tag);
    && Ready(n, provider) && n.releases[tag].provider == n.releases[provider].instance
    && (n.releases[tag].provider.Some? ==> n.releases[tag].reason == Some(ReasonFor(compare, d, n, tag)))
  }

  lemma ServedIff(compare: Comparison, d: Desired, n: Observed, tag: Tag)
    ensures Served(compare, d, n, tag) <==> Bound(compare, d, n, tag) && Deployed(n, tag)
  {}

  predicate StagingServed(compare: Comparison, d: Desired, n: Observed) {
    && n.staging == d.staging
    && (d.staging.Some? ==>
          var s := d.staging.value;
          Built(n, s) && Ready(n, s) && !BindingChanged(compare, d, n, s) && Qualified(n, s) && Deployed(n, s))
  }

  /** The planner's own way of seeing that nothing is left. */
  predicate Finished(compare: Comparison, d: Desired, n: Observed) {
    Late(compare, d, n) && FirstUnchecked(n, ProductionTags(d)).None? && StagingServed(compare, d, n)
  }

  lemma ConvergedIsFinished(compare: Comparison, d: Desired, n: Observed, force: Option<Tag>)
    ensures MakePlan(compare, d, n, force).Converged() <==> Finished(compare, d, n)
  {}

  lemma {:induction false} AllChecked(n: Observed, tags: seq<Tag>, i: nat)
    requires FirstUnchecked(n, tags).None? && i < |tags|
    ensures Deployed(n, tags[i])
  {
    if i > 0 { AllChecked(n, tags[1..], i - 1); }
  }

  lemma {:induction false} CheckedAll(n: Observed, tags: seq<Tag>)
    requires forall u | u in tags :: Deployed(n, u)
    ensures FirstUnchecked(n, tags).None?
  {
    if tags != [] {
      assert tags[0] in tags;
      CheckedAll(n, tags[1..]);
    }
  }

  lemma StagingProvider(compare: Comparison, d: Desired, n: Observed, tag: Tag)
    requires Assigned(d) && d.staging == Some(tag)
    ensures ProviderTag(compare, d, n, tag) == tag
  {}

  lemma FinishedServes(compare: Comparison, d: Desired, n: Observed, tag: Tag)
    requires Assigned(d) && Finished(compare, d, n) && tag in Tags(d)
    ensures Served(compare, d, n, tag)
  {
    ServedIff(compare, d, n, tag);
    if d.staging == Some(tag) {
      StagingProvider(compare, d, n, tag);
    } else {
      ProductionTagIs(d, tag);
      var i: nat :| i < |ProductionTags(d)| && ProductionTags(d)[i] == tag;
      AllChecked(n, ProductionTags(d), i);
      NoFirstWork(compare, d, n, ProductionTags(d), i);
    }
  }

  lemma ServedFinishes(compare: Comparison, d: Desired, n: Observed)
    requires Assigned(d) && AsDesired(compare, d, n)
    ensures Finished(compare, d, n)
  {
    forall u | u in ProductionTags(d) ensures Bound(compare, d, n, u) && Deployed(n, u) {
      ProductionTagIn(d, u);
      ServedIff(compare, d, n, u);
    }
    BoundIsLate(compare, d, n);
    CheckedAll(n, ProductionTags(d));
    if d.staging.Some? {
      ServedIff(compare, d, n, d.staging.value);
      StagingProvider(compare, d, n, d.staging.value);
    }
  }

  /** The planner reports convergence exactly when every desired release is served as assigned. */
  lemma ConvergedMeans(compare: Comparison, d: Desired, n: Observed, force: Option<Tag>)
    requires Assigned(d)
    ensures MakePlan(compare, d, n, force).Converged() <==> AsDesired(compare, d, n)
  {
    ConvergedIsFinished(compare, d, n, force);
    if Finished(compare, d, n) {
      forall tag | tag in Tags(d) ensures Served(compare, d, n, tag) { FinishedServes(compare, d, n, tag); }
    }
    if AsDesired(compare, d, n) { ServedFinishes(compare, d, n); }
  }

  /** A plan without an action is blocked exactly in the states that were bound to block. */
  lemma BlockedMeans(host: Host, compare: Comparison, d: Desired, n: Observed, force: Option<Tag>)
    requires Good(host, d, n) && MakePlan(compare, d, n, force).action.None?
    ensures MakePlan(compare, d, n, force).blocked <==> WillBlock(host, d, n, force)
  {
    DoneCount(host, compare, d, n, force);
  }

  /** No action turns a run that will be blocked into one that will not, or the other way around. */
  lemma ActionKeepsBlock(host: Host, compare: Comparison, d: Desired, n: Observed, force: Option<Tag>, a: Action)
    requires Good(host, d, n) && MakePlan(compare, d, n, force).action == Some(a) && (a.Activate? || a.tag in Tags(d))
    ensures WillBlock(host, d, Next(host, compare, d, n, force, a), force) == WillBlock(host, d, n, force)
  {
    NormalizeProspects(host, d, Act(host, compare, d, n, force, a), force);
    if !WorkDone(compare, d, n) {
      var tag := WorkForeseen(host, compare, d, n);
      BuiltIsDescribed(host, d, n, a.tag);
      if a.BuildRelease? {
        BuildProspects(host, d, n, force, a.tag);
      } else {
        StartProspects(host, d, n, force, a.tag);
      }
    } else if !Late(compare, d, n) {
      PromotionPlan(host, compare, d, n, force, a);
    }
  }

  // ----- Whole runs -----

  /** How many actions a run takes if nothing stops it. */
  ghost function Steps(host: Host, compare: Comparison, d: Desired, n: Observed, force: Option<Tag>): nat
    requires Good(host, d, n)
    decreases ActionsLeft(host, compare, d, n, force)
  {
    var a := MakePlan(compare, d, n, force).action;
    if a.None? then 0
    else
      ActionCounts(host, compare, d, n, force, a.value);
      1 + Steps(host, compare, d, Next(host, compare, d, n, force, a.value), force)
  }

  /** Where it ends. */
  ghost function Final(host: Host, compare: Comparison, d: Desired, n: Observed, force: Option<Tag>): Observed
    requires Good(host, d, n)
    decreases ActionsLeft(host, compare, d, n, force)
  {
    var a := MakePlan(compare, d, n, force).action;
    if a.None? then n
    else
      ActionCounts(host, compare, d, n, force, a.value);
      Final(host, compare, d, Next(host, compare, d, n, force, a.value), force)
  }

  /**
   The number of actions a run takes is the one foreseen from where it starts, and is linear in the
   releases served.
   */
  lemma {:induction false} StepsAreCounted(host: Host, compare: Comparison, d: Desired, n: Observed, force: Option<Tag>)
    requires Good(host, d, n)
    ensures Steps(host, compare, d, n, force) == ActionsLeft(host, compare, d, n, force)
    decreases ActionsLeft(host, compare, d, n, force)
  {
    var a := MakePlan(compare, d, n, force).action;
    if a.Some? {
      ActionCounts(host, compare, d, n, force, a.value);
      StepsAreCounted(host, compare, d, Next(host, compare, d, n, force, a.value), force);
    } else {
      NothingLeft(host, compare, d, n, force);
    }
  }

  /**
   A run ends with every desired release served as assigned, unless it was bound to block from the
   start; then it ends blocked.
   */
  lemma {:induction false} RunEnds(host: Host, compare: Comparison, d: Desired, n: Observed, force: Option<Tag>)
    requires Good(host, d, n)
    ensures var f := Final(host, compare, d, n, force);
            && Good(host, d, f) && MakePlan(compare, d, f, force).action.None?
            && (MakePlan(compare, d, f, force).blocked <==> WillBlock(host, d, n, force))
            && (AsDesired(compare, d, f) <==> !WillBlock(host, d, n, force))
    decreases ActionsLeft(host, compare, d, n, force)
  {
    var a := MakePlan(compare, d, n, force).action;
    if a.Some? {
      ActionCounts(host, compare, d, n, force, a.value);
      ActionKeepsBlock(host, compare, d, n, force, a.value);
      RunEnds(host, compare, d, Next(host, compare, d, n, force, a.value), force);
    } else {
      BlockedMeans(host, compare, d, n, force);
      ConvergedMeans(compare, d, n, force);
    }
  }

  // ----- The longest runs -----

  /**
   A host whose releases describe no daemon, so that each has a listener of its own, and on which a
   deployment from before the controller is still running.
   */
  function LegacyHost(): Host {
    Host(_ => None, t => t, t => Instance(t, "-", "", None, None, NotStarted, None), _ => Compatibility.Null,
         _ => "", _ => "", _ => "-", Some(""), 0, _ => false)
  }

  /** A fresh installation: nothing is built, nothing is served. */
  function Unbuilt(d: Desired): Observed {
    var r := Release("", Pending, Pending, Pending, None, None, None, NotStarted, None, None, None, None, None);
    Observed(map tag | tag in Tags(d) :: r, map[], None, None, [], 0, false, false)
  }

  lemma UnbuiltIsGood(d: Desired)
    requires Assigned(d)
    ensures Good(LegacyHost(), d, Unbuilt(d)) && StagingBuilt(Unbuilt(d))
  {}

  lemma {:induction false} AllNeeded(compare: Comparison, d: Desired, tags: seq<Tag>)
    requires Assigned(d) && (forall u | u in d.sunset :: u in d.dedicated)
    requires forall u | u in tags :: u in ProductionTags(d)
    ensures Needed(LegacyHost(), compare, d, Unbuilt(d), tags) == 2 * |tags|
  {
    if tags != [] {
      assert tags[0] in tags;
      ProductionTagIn(d, tags[0]);
      AllNeeded(compare, d, tags[1..]);
    }
  }

  /**
   The first run on a fresh installation reaches the bound, for every assignment with a staging
   release in which no sunset release shares a daemon.
   */
  lemma BoundIsReached(compare: Comparison, d: Desired)
    requires Assigned(d) && d.staging.Some? && forall u | u in d.sunset :: u in d.dedicated
    ensures Good(LegacyHost(), d, Unbuilt(d)) && StagingBuilt(Unbuilt(d))
    ensures Steps(LegacyHost(), compare, d, Unbuilt(d), None) == 4 * |ProductionTags(d)| + 5
    ensures !WillBlock(LegacyHost(), d, Unbuilt(d), None)
  {
    UnbuiltIsGood(d);
    UnbuiltCount(compare, d);
    StepsAreCounted(LegacyHost(), compare, d, Unbuilt(d), None);
  }

  /** Two actions for each release, a switch and its checks, and the same once more for staging. */
  lemma UnbuiltCount(compare: Comparison, d: Desired)
    requires Assigned(d) && d.staging.Some? && forall u | u in d.sunset :: u in d.dedicated
    ensures ActionsLeft(LegacyHost(), compare, d, Unbuilt(d), None) == 4 * |ProductionTags(d)| + 5
    ensures !WillBlock(LegacyHost(), d, Unbuilt(d), None)
  {
    AllNeeded(compare, d, ProductionTags(d));
  }
}
