/** `retire_instances` of tools/live_feed_retirement.py as it runs: every write is a step of `InstanceRetirement`. */
module DaemonRetirement {
  import opened Wrappers
  import opened InstanceRetirement
  import Retention

  // ----- What a call comes to -----

  /** A daemon's record after its turn. */
  function Turned(r: Record, used: bool, now: int): Record {
    if used then r.(deadline := None)
    else if r.status.Removed? then r
    else Record(Stopped, Some(if r.deadline.Some? then r.deadline.value else now + Retention.GRACE), false)
  }

  /** The daemon goes: its removal was interrupted, or nothing needs it and its deadline has passed. */
  predicate Doomed(w: World, now: int, active: set<Id>, candidates: set<Id>, id: Id) {
    && id in w.memory && id !in active
    && var r := w.memory[id];
    if r.status.Removed? then id in w.present
    else id !in candidates && r.deadline.Some? && r.deadline.value <= now
  }

  function DoomedSet(w: World, now: int, active: set<Id>, candidates: set<Id>): set<Id> {
    set id | id in w.memory && Doomed(w, now, active, candidates, id)
  }

  /** Its service cannot be brought down, or is up although its removal was saved. */
  predicate Refuses(w: World, active: set<Id>, stubborn: set<Id>, id: Id) {
    && id in w.memory && id !in active
    && var r := w.memory[id];
    if r.status.Removed? then id in w.present && id in w.up
    else (!r.status.Stopped? || id in w.up) && id in stubborn
  }

  predicate Accepts(w: World, active: set<Id>, candidates: set<Id>) {
    active + candidates <= w.memory.Keys && forall id | id in active :: Live(w.memory, id)
  }

  /** The world after the first loop has visited these daemons. */
  function Midway(w: World, now: int, active: set<Id>, candidates: set<Id>, done: set<Id>): World {
    var m := map id | id in w.memory :: if id in done then Turned(w.memory[id], id in active, now) else w.memory[id];
    w.(memory := m, saved := m, clock := Later(w.clock, now), task := Retiring(now, active, candidates, {}, false),
       up := w.up - set id | id in done && Live(w.memory, id) && id !in active)
  }

  /** The world after the whole call. */
  function Retired(w: World, now: int, active: set<Id>, candidates: set<Id>): World {
    var doomed := DoomedSet(w, now, active, candidates);
    var mid := Midway(w, now, active, candidates, w.memory.Keys);
    if doomed == {} then mid.(task := Idle)
    else mid.(memory := Removing(mid.memory, doomed), saved := Removing(mid.memory, doomed),
              gc := true, savedGc := true,
              rooted := w.rooted - doomed, whole := w.whole - doomed, present := w.present - doomed, task := Idle)
  }

  /** A removal that was interrupted is finished by the next call, unless the daemon is in use. */
  lemma InterruptedRemovalEnds(w: World, now: int, active: set<Id>, candidates: set<Id>, id: Id)
    requires id in w.memory && w.memory[id].status.Removed? && id !in active
    ensures id !in Retired(w, now, active, candidates).present
  {
    assert id in w.present ==> id in DoomedSet(w, now, active, candidates);
  }

  /** Record by record: what is not in use is stopped, and removed if it was doomed. */
  lemma RetiredRecord(w: World, now: int, active: set<Id>, candidates: set<Id>, id: Id)
    requires id in w.memory
    ensures var w', doomed := Retired(w, now, active, candidates), Doomed(w, now, active, candidates, id);
            && id in w'.memory && w'.saved == w'.memory
            && w'.memory[id] == (if doomed then Turned(w.memory[id], false, now).(status := Removed)
                 else Turned(w.memory[id], id in active, now))
            && (id in w'.present <==> id in w.present && !doomed)
            && (id in w'.up <==> id in w.up && (id in active || w.memory[id].status.Removed?))
  {
    assert id in DoomedSet(w, now, active, candidates) <==> Doomed(w, now, active, candidates, id);
  }

  /** What a call makes of one daemon: in use, removed before, or no longer needed. */
  ghost predicate RetiredSo(w: World, w': World, now: int, active: set<Id>, candidates: set<Id>, id: Id)
    requires id in w.memory && id in w'.memory
  {
    var r, r' := w.memory[id], w'.memory[id];
    if id in active then
      r' == r.(deadline := None) && FilesKept(w, w', id) && (id in w'.up <==> id in w.up)
    else if r.status.Removed? then
      && r' == r && id !in w'.present && (id in w'.up <==> id in w.up)
    else
      && !r'.evidence && id !in w'.up
      && r'.deadline == Some(if r.deadline.Some? then r.deadline.value else now + 3600)
      && if id !in candidates && r.deadline.Some? && r.deadline.value <= now
         then r'.status.Removed? && id !in w'.present && id !in w'.whole && id !in w'.rooted
         else r'.status.Stopped? && FilesKept(w, w', id)
  }

  ghost predicate FilesKept(w: World, w': World, id: Id) {
    && (id in w'.present <==> id in w.present) && (id in w'.whole <==> id in w.whole)
    && (id in w'.rooted <==> id in w.rooted)
  }

  /** The daemon does not get in the way: unused, it comes down or is down, and if removed it is not running again. */
  ghost predicate LetsGo(w: World, active: set<Id>, stubborn: set<Id>, id: Id)
    requires id in w.memory
  {
    || id in active
    || (w.memory[id].status.Removed? && !(id in w.present && id in w.up))
    || (!w.memory[id].status.Removed? && (id !in stubborn || (w.memory[id].status.Stopped? && id !in w.up)))
  }

  lemma RetiredMeans(w: World, now: int, active: set<Id>, candidates: set<Id>)
    requires forall id | id in active :: Live(w.memory, id)
    ensures var w' := Retired(w, now, active, candidates);
            && w'.memory.Keys == w.memory.Keys && w'.saved == w'.memory
            && forall id | id in w.memory :: RetiredSo(w, w', now, active, candidates, id)
  {
    var w' := Retired(w, now, active, candidates);
    forall id | id in w.memory ensures RetiredSo(w, w', now, active, candidates, id) {
      RetiredRecord(w, now, active, candidates, id);
      assert id in DoomedSet(w, now, active, candidates) <==> Doomed(w, now, active, candidates, id);
    }
  }

  /** A second call at the same time finds nothing to do. */
  lemma RetiringAgain(w: World, now: int, active: set<Id>, candidates: set<Id>)
    requires forall id | id in active :: Live(w.memory, id)
    ensures var w' := Retired(w, now, active, candidates); Retired(w', now, active, candidates) == w'
  {
    var w' := Retired(w, now, active, candidates);
    forall id | id in w'.memory
      ensures !Doomed(w', now, active, candidates, id) && Turned(w'.memory[id], id in active, now) == w'.memory[id]
      ensures Live(w'.memory, id) && id !in active ==> id !in w'.up
    {
      RetiredRecord(w, now, active, candidates, id);
    }
    assert DoomedSet(w', now, active, candidates) == {};
    var mid := Midway(w', now, active, candidates, w'.memory.Keys);
    assert mid.memory == w'.memory;
    assert mid.up == w'.up;
  }

  lemma MidwayStart(w: World, now: int, active: set<Id>, candidates: set<Id>)
    requires w.saved == w.memory
    ensures Midway(w, now, active, candidates, {})
              == w.(clock := Later(w.clock, now), task := Retiring(now, active, candidates, {}, false))
  {
    assert Midway(w, now, active, candidates, {}).memory == w.memory;
    assert Midway(w, now, active, candidates, {}).up == w.up;
  }

  /** One daemon's turn. */
  lemma MidwayStep(w: World, now: int, active: set<Id>, candidates: set<Id>, done: set<Id>, id: Id)
    requires id in w.memory && id !in done
    ensures var mid, next := Midway(w, now, active, candidates, done), Midway(w, now, active, candidates, done + {id});
            && id in mid.memory && mid.memory[id] == w.memory[id] && (id in mid.up <==> id in w.up)
            && mid.saved == mid.memory
            && next.memory == mid.memory[id := Turned(w.memory[id], id in active, now)]
            && next == mid.(memory := next.memory, saved := next.memory,
                            up := if Live(w.memory, id) && id !in active then mid.up - {id} else mid.up)
  {
    var mid, next := Midway(w, now, active, candidates, done), Midway(w, now, active, candidates, done + {id});
    assert next.memory == mid.memory[id := Turned(w.memory[id], id in active, now)];
    assert next.up == if Live(w.memory, id) && id !in active then mid.up - {id} else mid.up;
  }

  function WithRecord(w: World, id: Id,
                      r: Record): World { w.(memory := w.memory[id := r], saved := w.memory[id := r]) }

  lemma WithTwice(w: World, id: Id, r: Record, r': Record)
    ensures WithRecord(WithRecord(w, id, r), id, r') == WithRecord(w, id, r')
  {
    assert w.memory[id := r][id := r'] == w.memory[id := r'];
  }

  class Daemons {
    var world: World
    ghost const origin: World
    ghost var log: seq<Action>

    ghost predicate Valid()
      reads this
    {
      Inv(origin) && IsRun(origin, log) && world == After(origin, log)
    }

    constructor (w: World)
      requires Inv(w)
      ensures Valid() && world == w && log == []
    {
      world, origin, log := w, w, [];
    }

    /** One durable step. */
    method Do(a: Action)
      requires Valid() && Enabled(world, a)
      modifies this
      ensures Valid() && log == old(log) + [a] && world == Apply(old(world), a)
    {
      world := Apply(world, a);
      ghost var before := log;
      log := log + [a];
      assert log[..|log| - 1] == before;
    }

    /** A change of one record, saved at once. */
    method DoSaved(a: Action)
      requires Valid() && (a.SetDeadline? || a.Settle? || a.ClearDeadline?) && Enabled(world, a)
      requires world.gc == world.savedGc
      modifies this
      ensures Valid() && old(log) <= log
      ensures world == Apply(old(world), a).(saved := Apply(old(world), a).memory)
    {
      Do(a);
      Do(Save);
    }

    method EnsureDeadline(id: Id)
      requires Valid() && Retirable(world, id) && world.saved == world.memory && world.gc == world.savedGc
      modifies this
      ensures Valid() && old(log) <= log
      ensures var r := old(world).memory[id];
              var dated := if r.deadline.Some? then r
                           else r.(deadline := Some(old(world).task.now + Retention.GRACE));
              world == WithRecord(old(world), id, dated)
    {
      if world.memory[id].deadline.None? {
        DoSaved(SetDeadline(id));
      } else {
        assert world.memory[id := world.memory[id]] == world.memory;
      }
    }

    method EnsureStopped(id: Id)
      requires Valid() && Retirable(world, id) && DeadlineSaved(world, id) && id !in world.up
      requires world.saved == world.memory && world.gc == world.savedGc
      modifies this
      ensures Valid() && old(log) <= log
      ensures world == WithRecord(old(world), id, old(world).memory[id].(status := Stopped, evidence := false))
    {
      if !world.memory[id].status.Stopped? || world.memory[id].evidence {
        DoSaved(Settle(id));
      } else {
        assert world.memory[id := world.memory[id]] == world.memory;
      }
    }

    /** Sets the deadline, brings the service down and records it; false where the service stays up. */
    method StopDaemon(id: Id, stubborn: set<Id>) returns (ok: bool)
      requires Valid() && Retirable(world, id) && world.saved == world.memory && world.gc == world.savedGc
      modifies this
      ensures Valid() && old(log) <= log
      ensures ok <==> !((!old(world.memory)[id].status.Stopped? || id in old(world.up)) && id in stubborn)
      ensures ok ==> world == WithRecord(old(world).(up := old(world).up - {id}), id,
                Turned(old(world).memory[id], false, old(world).task.now))
    {
      ghost var was := world;
      EnsureDeadline(id);
      ghost var dated := world.memory[id];
      if !world.memory[id].status.Stopped? || id in world.up {
        if id in stubborn { return false; }
        Do(Stop(id));
      }
      assert world == WithRecord(was.(up := was.up - {id}), id, dated);
      EnsureStopped(id);
      WithTwice(was.(up := was.up - {id}), id, dated, Turned(was.memory[id], false, was.task.now));
      return true;
    }

    /** The first loop has visited the daemons in `done`, and found these to be doomed. */
    ghost predicate Visiting(w: World, now: int, active: set<Id>, candidates: set<Id>, stubborn: set<Id>, done: set<Id>,
                             found: set<Id>)
      reads this
    {
      && world == Midway(w, now, active, candidates, done)
      && NoneRefuses(w, active, stubborn, done) && found == DoomedOf(w, now, active, candidates, done)
    }

    /** One daemon's turn; false where its service refuses to come down. */
    method TakeTurn(id: Id, stubborn: set<Id>, ghost w: World, ghost now: int, ghost active: set<Id>,
                    ghost candidates: set<Id>,
                    ghost done: set<Id>)
      returns (ok: bool, doomed: bool)
      requires Valid() && id in w.memory && id !in done && w.gc == w.savedGc
      requires world == Midway(w, now, active, candidates, done)
      modifies this
      ensures Valid() && old(log) <= log
      ensures ok <==> !Refuses(w, active, stubborn, id)
      ensures ok ==>
                && world == Midway(w, now, active, candidates, done + {id})
                && doomed == Doomed(w, now, active, candidates, id)
    {
      MidwayStep(w, now, active, candidates, done, id);
      var r := world.memory[id];
      if id in world.task.active {
        if r.deadline.Some? {
          Do(ClearDeadline(id));
          Do(Save);
        }
        return true, false;
      }
      if r.status.Removed? {
        if id in world.present && id in world.up { return false, false; }
        return true, id in world.present;
      }
      ok := StopDaemon(id, stubborn);
      doomed := ok && id !in world.task.candidates && world.memory[id].deadline.value <= world.task.now;
    }

    /** The body of the first loop. */
    method Visit(id: Id, stubborn: set<Id>, found: set<Id>, ghost w: World, ghost now: int, ghost active: set<Id>,
                 ghost candidates: set<Id>, ghost done: set<Id>)
      returns (r: Option<set<Id>>)
      requires Valid() && id in w.memory && id !in done && w.gc == w.savedGc
      requires Visiting(w, now, active, candidates, stubborn, done, found)
      modifies this
      ensures Valid() && old(log) <= log
      ensures r.Some? <==> !Refuses(w, active, stubborn, id)
      ensures r.Some? ==> Visiting(w, now, active, candidates, stubborn, done + {id}, r.value)
    {
      DoomedStep(w, now, active, candidates, stubborn, done, id);
      var ok, doomed := TakeTurn(id, stubborn, w, now, active, candidates, done);
      r := if !ok then None else Some(if doomed then found + {id} else found);
    }

    /** The second half up to the deletions: give up the roots, then save the removal. */
    method Disown(obsolete: set<Id>)
      requires Valid() && world.task.Retiring? && world.task.obsolete == {} && !world.task.unrooted
      requires world.saved == world.memory
      requires forall id | id in obsolete :: Obsolete(world, id)
      modifies this
      ensures Valid() && old(log) <= log
      ensures var m := Removing(old(world).memory, obsolete);
              world == old(world).(memory := m, saved := m, gc := true, savedGc := true,
                  rooted := old(world).rooted - obsolete,
                                   task := old(world).task.(obsolete := obsolete, unrooted := true))
    {
      Do(Condemn(obsolete));
      Do(Save);
      Do(Unroot);
      Do(MarkRemoved);
      Do(Save);
    }

    /** The launch files go one by one. */
    method DeleteOne(id: Id)
      requires Valid() && world.task.Retiring? && world.task.unrooted && id in world.task.obsolete
      requires Deletable(world, id)
      modifies this
      ensures Valid() && old(log) <= log && world == Without(old(world), {id})
    {
      Do(Delete(id, false));
      Do(Delete(id, true));
      assert world.whole == old(world).whole - {id};
    }

    method DeleteAll()
      requires Valid() && world.task.Retiring? && world.task.unrooted
      requires forall id | id in world.task.obsolete :: Deletable(world, id)
      modifies this
      ensures Valid() && old(log) <= log
      ensures world == Without(old(world), old(world).task.obsolete)
    {
      ghost var marked := world;
      var obsolete := world.task.obsolete;
      var rest := obsolete;
      assert Without(marked, obsolete - rest) == marked;
      while rest != {}
        invariant rest <= obsolete && Valid() && old(log) <= log && world == Without(marked, obsolete - rest)
        decreases |rest|
      {
        var id :| id in rest;
        WithoutStep(marked, obsolete, rest, id);
        assert Deletable(marked, id);
        DeleteOne(id);
        rest := rest - {id};
      }
      assert obsolete - rest == obsolete;
    }

    /** The first loop, over the daemons in any order. */
    method VisitAll(stubborn: set<Id>, ghost w: World, now: int, active: set<Id>,
                    candidates: set<Id>) returns (obsolete: Option<set<Id>>)
      requires Valid() && w.gc == w.savedGc && world == Midway(w, now, active, candidates, {})
      modifies this
      ensures Valid() && old(log) <= log
      ensures obsolete.Some? <==> NoneRefuses(w, active, stubborn, w.memory.Keys)
      ensures obsolete.Some? ==> obsolete.value == DoomedSet(w, now, active, candidates)
                                 && world == Midway(w, now, active, candidates, w.memory.Keys)
    {
      obsolete := Some({});
      var ids := world.memory.Keys;
      var rest := ids;
      assert ids == w.memory.Keys && ids - rest == {};
      while rest != {}
        invariant rest <= ids && Valid() && old(log) <= log
        invariant obsolete.Some? && Visiting(w, now, active, candidates, stubborn, ids - rest, obsolete.value)
        decreases |rest|
      {
        var id :| id in rest;
        obsolete := Visit(id, stubborn, obsolete.value, w, now, active, candidates, ids - rest);
        if obsolete.None? { return; }
        assert ids - (rest - {id}) == ids - rest + {id};
        rest := rest - {id};
      }
      assert ids - rest == ids;
    }

    /** `retire_instances`; `stubborn` services do not come down. None where the code raises. */
    method RetireInstances(now: int, active: set<Id>, candidates: set<Id>,
                           stubborn: set<Id>) returns (removed: Option<set<Id>>)
      requires Valid() && world.task.Idle? && world.saved == world.memory && world.gc == world.savedGc
      modifies this
      ensures Valid() && old(log) <= log
      ensures removed.Some? <==>
                && Accepts(old(world), active, candidates)
                && NoneRefuses(old(world), active, stubborn, old(world).memory.Keys)
      ensures removed.Some? ==> removed.value == DoomedSet(old(world), now, active, candidates)
                                && world == Retired(old(world), now, active, candidates)
      ensures removed.Some? <==>
                && active + candidates <= old(world).memory.Keys
                && (forall id | id in active :: !old(world).memory[id].status.Removed?)
                && forall id | id in old(world).memory :: LetsGo(old(world), active, stubborn, id)
      ensures removed.Some? ==>
                && world.memory.Keys == old(world).memory.Keys && world.saved == world.memory
                && forall id | id in old(world).memory :: RetiredSo(old(world), world, now, active, candidates, id)
    {
      ghost var w := world;
      RefusesIff(w, active, stubborn);
      if !Accepts(world, active, candidates) { return None; }
      Do(Begin(now, active, candidates));
      MidwayStart(w, now, active, candidates);
      removed := VisitAll(stubborn, w, now, active, candidates);
      if removed.None? { return; }
      if removed.value != {} {
        assert Inv(w) by { assert Inv(origin); RunInv(origin, old(log)); }
        DoomedIsObsolete(w, now, active, candidates, stubborn);
        Disown(removed.value);
        DeleteAll();
      }
      Do(End);
      RetiredMeans(w, now, active, candidates);
    }
  }

  predicate Deletable(w: World, id: Id) {
    id in w.saved && w.saved[id].status.Removed? && id in w.memory && w.memory[id].status.Removed?
  }

  function Without(w: World, ids: set<Id>): World { w.(whole := w.whole - ids, present := w.present - ids) }

  lemma WithoutStep(w: World, ids: set<Id>, rest: set<Id>, id: Id)
    requires rest <= ids && id in rest
    ensures Without(w, ids - (rest - {id})) == Without(Without(w, ids - rest), {id})
  {
    assert ids - (rest - {id}) == ids - rest + {id};
    assert w.whole - (ids - rest + {id}) == w.whole - (ids - rest) - {id};
    assert w.present - (ids - rest + {id}) == w.present - (ids - rest) - {id};
  }

  predicate NoneRefuses(w: World, active: set<Id>, stubborn: set<Id>, done: set<Id>) {
    forall id | id in done :: !Refuses(w, active, stubborn, id)
  }

  lemma RefusesIff(w: World, active: set<Id>, stubborn: set<Id>)
    ensures NoneRefuses(w, active, stubborn, w.memory.Keys) <==>
              forall id | id in w.memory :: LetsGo(w, active, stubborn, id)
  {
    forall id | id in w.memory ensures Refuses(w, active, stubborn, id) <==> !LetsGo(w, active, stubborn, id) {}
  }

  function DoomedOf(w: World, now: int, active: set<Id>, candidates: set<Id>, done: set<Id>): set<Id> {
    set id | id in done && Doomed(w, now, active, candidates, id)
  }

  lemma DoomedStep(w: World, now: int, active: set<Id>, candidates: set<Id>, stubborn: set<Id>, done: set<Id>, id: Id)
    ensures DoomedOf(w, now, active, candidates, done + {id})
         == if Doomed(w, now, active, candidates, id) then DoomedOf(w, now, active, candidates, done) + {id}
            else DoomedOf(w, now, active, candidates, done)
    ensures NoneRefuses(w, active, stubborn, done + {id}) <==>
              NoneRefuses(w, active, stubborn, done) && !Refuses(w, active, stubborn, id)
    ensures DoomedOf(w, now, active, candidates, w.memory.Keys) == DoomedSet(w, now, active, candidates)
  {}

  /** After the first loop, what is doomed is down, unused and past its saved deadline. */
  lemma DoomedIsObsolete(w: World, now: int, active: set<Id>, candidates: set<Id>, stubborn: set<Id>)
    requires Inv(w) && NoneRefuses(w, active, stubborn, w.memory.Keys)
    ensures forall id | id in DoomedSet(w, now, active, candidates) ::
              Obsolete(Midway(w, now, active, candidates, w.memory.Keys), id)
  {
    forall id | id in DoomedSet(w, now, active, candidates)
      ensures Obsolete(Midway(w, now, active, candidates, w.memory.Keys), id)
    {
      assert !Refuses(w, active, stubborn, id);
    }
  }
}
