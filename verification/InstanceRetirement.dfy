/**
 Retirement of live-feed daemons (tools/live_feed_retirement.py), one durable step at a time: the
 controller's memory and its saved state, the running services, the launch files and the GC roots.
 */
module InstanceRetirement {
  import opened Wrappers
  import Generations
  import Retention

  type Id = string

  datatype Status = Pending | Running | Unavailable | Failed | Stopped | Removed
  datatype Record = Record(status: Status, deadline: Option<int>, evidence: bool)

  /** A call of `retire_instances` in progress, and the time it goes by. */
  datatype Task = Idle | Retiring(now: int, active: set<Id>, candidates: set<Id>, obsolete: set<Id>, unrooted: bool)

  /**
   `present` daemons have launch files, `whole` ones have all of them, `rooted` ones are listed in
   the GC registry; `clock` is the latest time a call has gone by.
   */
  datatype World = World(
    memory: map<Id, Record>, saved: map<Id, Record>, gc: bool, savedGc: bool,
    up: set<Id>, present: set<Id>, whole: set<Id>, rooted: set<Id>, clock: int, task: Task)

  datatype Action =
    // the steps of a call
    | Begin(now: int, active: set<Id>, candidates: set<Id>)
    | ClearDeadline(id: Id)
    | SetDeadline(id: Id)
    | Save
    | Stop(id: Id)
    | Settle(id: Id)
    | Condemn(ids: set<Id>)
    | Unroot
    | MarkRemoved
    | Delete(id: Id, rest: bool)
    | End
    | Crash
    // what the controller does otherwise
    | Prepare(id: Id)
    | Launch(id: Id)
    | Probe(id: Id, status: Status)
    | Quit(id: Id)
    | Drain(id: Id, until: int)
    | Undrain(id: Id)
    | Pin

  /** The daemon has a record that is not marked as removed. */
  predicate Live(m: map<Id, Record>, id: Id) { id in m && !m[id].status.Removed? }

  predicate Retirable(w: World, id: Id) { w.task.Retiring? && Live(w.memory, id) && id !in w.task.active }

  /** The drain deadline is set, and saved. */
  predicate DeadlineSaved(w: World, id: Id) {
    id in w.memory && w.memory[id].deadline.Some? && id in w.saved && w.saved[id].deadline == w.memory[id].deadline
  }

  /** May be removed, or finished removing. */
  predicate Obsolete(w: World, id: Id) {
    && w.task.Retiring? && id in w.memory && id !in w.task.active && id !in w.up
    && (w.memory[id].status.Removed?
        || (&& w.memory[id].status.Stopped? && id !in w.task.candidates
            && DeadlineSaved(w, id) && w.memory[id].deadline.value <= w.task.now))
  }

  predicate Enabled(w: World, a: Action) {
    match a
    case Begin(_, active, candidates) =>
      w.task.Idle? && active + candidates <= w.memory.Keys && forall id | id in active :: Live(w.memory, id)
    case ClearDeadline(id) => w.task.Retiring? && id in w.memory && id in w.task.active
    case SetDeadline(id) => Retirable(w, id) && w.memory[id].deadline.None?
    case Save => true
    case Stop(id) => Retirable(w, id) && DeadlineSaved(w, id)
    case Settle(id) => Retirable(w, id) && DeadlineSaved(w, id) && id !in w.up
    case Condemn(ids) =>
      w.task.Retiring? && !w.task.unrooted && w.task.obsolete == {} && forall id | id in ids :: Obsolete(w, id)
    case Unroot => w.task.Retiring? && w.savedGc
    case MarkRemoved => w.task.Retiring? && w.task.unrooted
    case Delete(id, _) =>
      && w.task.Retiring? && id in w.task.obsolete && w.task.unrooted
      && id in w.saved && w.saved[id].status.Removed?
      && id in w.memory && w.memory[id].status.Removed?
    case End => w.task.Retiring?
    case Crash => true
    case Prepare(id) => w.task.Idle? && !Live(w.memory, id) && (id in w.present ==> id in w.whole)
    case Launch(id) => w.task.Idle? && Live(w.memory, id)
    case Probe(id, status) => w.task.Idle? && Live(w.memory, id) && !status.Removed?
    case Drain(id, until) => w.task.Idle? && Live(w.memory, id) && w.memory[id].deadline.None?
    case Quit(id) => w.task.Idle?
    case Undrain(id) => w.task.Idle? && Live(w.memory, id)
    case Pin => w.task.Idle?
  }

  function Later(a: int, b: int): int { if a < b then b else a }

  function Put(w: World, id: Id, r: Record): World { w.(memory := w.memory[id := r]) }

  function Removing(m: map<Id, Record>, ids: set<Id>): map<Id, Record> {
    map id | id in m :: if id in ids then m[id].(status := Removed) else m[id]
  }

  /** The daemons that are pinned: all that are not marked as removed. */
  function Pinned(w: World): set<Id> { set id | id in w.memory && !w.memory[id].status.Removed? }

  function Apply(w: World, a: Action): World
    requires Enabled(w, a)
  {
    match a
    case Begin(now, active, candidates) => w.(clock := Later(w.clock, now),
                                             task := Retiring(now, active, candidates, {}, false))
    case ClearDeadline(id) => Put(w, id, w.memory[id].(deadline := None))
    case SetDeadline(id) => Put(w, id, w.memory[id].(deadline := Some(w.task.now + Retention.GRACE)))
    case Save => w.(saved := w.memory, savedGc := w.gc)
    case Stop(id) => w.(up := w.up - {id})
    case Settle(id) => Put(w, id, w.memory[id].(status := Stopped, evidence := false))
    case Condemn(ids) => w.(gc := true, task := w.task.(obsolete := ids))
    case Unroot => w.(rooted := w.rooted - w.task.obsolete, task := w.task.(unrooted := true))
    case MarkRemoved => w.(memory := Removing(w.memory, w.task.obsolete))
    case Delete(id, rest) => w.(whole := w.whole - {id}, present := if rest then w.present - {id} else w.present)
    case End => w.(task := Idle)
    case Crash => w.(memory := w.saved, gc := w.savedGc, task := Idle)
    case Prepare(id) => Put(w, id, Record(Pending, None, false)).(present := w.present + {id}, whole := w.whole + {id})
    case Launch(id) => Put(w, id, w.memory[id].(status := Pending, evidence := false)).(up := w.up + {id})
    case Probe(id, status) => Put(w, id, w.memory[id].(status := status, evidence := status.Running?))
    case Drain(id, until) => Put(w, id, w.memory[id].(deadline := Some(until)))
    case Quit(id) => w.(up := w.up - {id})
    case Undrain(id) => Put(w, id, w.memory[id].(deadline := None))
    case Pin => w.(rooted := w.rooted + Pinned(w))
  }

  predicate IsRun(w: World, run: seq<Action>)
    decreases |run|, 0
  {
    run == [] || (IsRun(w, run[..|run| - 1]) && Enabled(After(w, run[..|run| - 1]), run[|run| - 1]))
  }

  function After(w: World, run: seq<Action>): World
    requires IsRun(w, run)
    decreases |run|, 1
  {
    if run == [] then w else Apply(After(w, run[..|run| - 1]), run[|run| - 1])
  }

  // ----- What every step keeps -----

  /** A daemon that either the memory or the saved state still counts on has all of its files. */
  ghost predicate KeepsFiles(w: World) {
    forall id | Live(w.memory, id) || Live(w.saved, id) :: id in w.whole
  }

  /** A removed daemon's drain deadline has passed. */
  ghost predicate Expired(w: World, m: map<Id, Record>) {
    forall id | id in m && m[id].status.Removed? :: m[id].deadline.Some? && m[id].deadline.value <= w.clock
  }

  /** What is being removed is stopped and not in use, and what has lost its root is not listed. */
  ghost predicate TaskSafe(w: World) {
    w.task.Retiring? ==>
      && w.task.now <= w.clock
      && (forall id | id in w.task.active :: Live(w.memory, id))
      && (forall id | id in w.task.obsolete ::
            id in w.memory && id !in w.task.active && id !in w.up && w.memory[id].deadline.Some?
            && w.memory[id].deadline.value <= w.clock
            && (id in w.task.candidates ==> w.memory[id].status.Removed?)
            && (w.task.unrooted ==> id !in w.rooted))
      && (forall id | id in w.task.obsolete && Live(w.memory, id) :: w.memory[id].status.Stopped?)
  }

  /** Whatever the GC registry lists of a daemon is there. */
  ghost predicate RootsExist(w: World) { w.rooted <= w.whole <= w.present }

  ghost predicate Inv(w: World) {
    KeepsFiles(w) && Expired(w, w.memory) && Expired(w, w.saved) && TaskSafe(w) && RootsExist(w)
  }

  lemma FilesStep(w: World, a: Action)
    requires Enabled(w, a) && KeepsFiles(w) && TaskSafe(w) && RootsExist(w)
    ensures KeepsFiles(Apply(w, a)) && RootsExist(Apply(w, a))
  {
    var w' := Apply(w, a);
    forall id | Live(w'.memory, id) || Live(w'.saved, id) ensures id in w'.whole {
      assert Live(w.memory, id) || Live(w.saved, id) || a == Prepare(id);
    }
  }

  lemma ExpiredStep(w: World, a: Action)
    requires Enabled(w, a) && Expired(w, w.memory) && Expired(w, w.saved) && TaskSafe(w)
    ensures var w' := Apply(w, a); Expired(w', w'.memory) && Expired(w', w'.saved)
  {
    var w' := Apply(w, a);
    assert w.clock <= w'.clock;
    assert w'.saved == w.saved || w'.saved == w.memory;
    forall id | id in w'.memory && w'.memory[id].status.Removed?
      ensures w'.memory[id].deadline.Some? && w'.memory[id].deadline.value <= w'.clock
    {
      if a.MarkRemoved? && id in w.task.obsolete {
        assert w'.memory[id].deadline == w.memory[id].deadline;
      } else {
        assert id in (if a.Crash? then w.saved else w.memory)
               && w'.memory[id] == (if a.Crash? then w.saved else w.memory)[id];
      }
    }
  }

  lemma TaskStep(w: World, a: Action)
    requires Enabled(w, a) && TaskSafe(w) && Expired(w, w.memory)
    ensures TaskSafe(Apply(w, a))
  {
    var w' := Apply(w, a);
    if w'.task.Retiring? && !a.Begin? {
      forall id | id in w'.task.active ensures Live(w'.memory, id) { assert Live(w.memory, id); }
      if !a.Condemn? { assert w'.task.obsolete == w.task.obsolete; }
    }
  }

  lemma InvStep(w: World, a: Action)
    requires Enabled(w, a) && Inv(w)
    ensures Inv(Apply(w, a))
  {
    FilesStep(w, a);
    ExpiredStep(w, a);
    TaskStep(w, a);
  }

  lemma {:induction false} RunInv(w: World, run: seq<Action>)
    requires Inv(w) && IsRun(w, run)
    ensures Inv(After(w, run))
  {
    if run != [] {
      RunInv(w, run[..|run| - 1]);
      InvStep(After(w, run[..|run| - 1]), run[|run| - 1]);
    }
  }

  /**
   In every run, crashes included, launch files are only ever deleted of a daemon that no served
   release uses, whose service is down, whose drain deadline has passed, whose GC root is gone and
   whose removal has been saved.
   */
  lemma DeletionIsSafe(w: World, run: seq<Action>, id: Id, rest: bool)
    requires Inv(w) && IsRun(w, run + [Delete(id, rest)])
    ensures IsRun(w, run)
    ensures var u := After(w, run);
            && id !in u.task.active && id !in u.up && id !in u.rooted
            && u.saved[id].status.Removed? && u.saved[id].deadline.Some? && u.saved[id].deadline.value <= u.clock
            && (id in u.task.candidates ==> u.memory[id].status.Removed?)
  {
    assert (run + [Delete(id, rest)])[..|run|] == run;
    RunInv(w, run);
  }

  /** Both records that count on a daemon find its files, at every point of every run. */
  lemma LiveKeepsFiles(w: World, run: seq<Action>, id: Id)
    requires Inv(w) && IsRun(w, run)
    ensures Live(After(w, run).memory, id) || Live(After(w, run).saved, id) ==>
              id in After(w, run).whole && id in After(w, run).present
  {
    RunInv(w, run);
  }

  /**
   At every point of every run each daemon's launch paths that the GC registry lists exist, those
   that pinning would add included; so pinning never leaves the registry with a missing path.
   */
  lemma PinsExist(w: World, run: seq<Action>)
    requires Inv(w) && IsRun(w, run)
    ensures var u := After(w, run); u.rooted + Pinned(u) <= u.whole <= u.present
  {
    RunInv(w, run);
    var u := After(w, run);
    forall id | id in Pinned(u) ensures id in u.whole { assert Live(u.memory, id); }
  }

  /** The same for the registry itself, on a disk with these launch files. */
  lemma PinningIsClosed(w: World, run: seq<Action>, s: Generations.State)
    requires Inv(w) && IsRun(w, run) && Generations.Closed(s.disk) && After(w, run).present <= s.disk.launches
    ensures Generations.Closed(Generations.Apply(s, Generations.Pin(Pinned(After(w, run)))).disk)
  {
    PinsExist(w, run);
    Generations.PinnedIsClosedIff(s, Pinned(After(w, run)));
  }

  /** Steps of the call itself. */
  predicate Within(a: Action) {
    a.ClearDeadline? || a.SetDeadline? || a.Save? || a.Stop? || a.Settle? || a.Condemn? || a.Unroot? || a.MarkRemoved?
    || a.Delete?
  }

  /** A call never stops or removes a daemon that a served release uses; it only frees it of its deadline. */
  lemma {:induction false} ActiveIsSpared(w: World, run: seq<Action>, id: Id)
    requires Inv(w) && IsRun(w, run) && w.task.Retiring? && id in w.task.active
    requires forall i | 0 <= i < |run| :: Within(run[i])
    ensures var u := After(w, run);
            && u.task.Retiring? && u.task.active == w.task.active && (id in u.up <==> id in w.up) && id in u.whole
            && id in w.memory && id in u.memory && u.memory[id] == w.memory[id].(deadline := u.memory[id].deadline)
            && (u.memory[id].deadline == w.memory[id].deadline || u.memory[id].deadline.None?)
  {
    RunInv(w, run);
    if run != [] {
      ActiveIsSpared(w, run[..|run| - 1], id);
      RunInv(w, run[..|run| - 1]);
      assert Within(run[|run| - 1]);
    }
  }

  /** A call removes no candidate: one that had not been removed before keeps its record and all its files. */
  lemma {:induction false} CandidateIsKept(w: World, run: seq<Action>, id: Id)
    requires Inv(w) && IsRun(w, run) && w.task.Retiring? && id in w.task.candidates && Live(w.memory, id)
    requires forall i | 0 <= i < |run| :: Within(run[i])
    ensures var u := After(w, run);
            u.task.Retiring? && u.task.candidates == w.task.candidates && Live(u.memory, id) && id in u.whole
  {
    RunInv(w, run);
    if run != [] {
      CandidateIsKept(w, run[..|run| - 1], id);
      RunInv(w, run[..|run| - 1]);
      assert Within(run[|run| - 1]);
    }
  }

  /** Steps that put a daemon back in use and so free it of its deadline. */
  predicate Frees(a: Action, id: Id) { a == ClearDeadline(id) || a == Undrain(id) || a == Prepare(id) }

  lemma DeadlineStep(w: World, a: Action, id: Id)
    requires Enabled(w, a) && DeadlineSaved(w, id) && !Frees(a, id)
    ensures DeadlineSaved(Apply(w, a), id) && Apply(w, a).memory[id].deadline == w.memory[id].deadline
  {}

  /**
   A saved drain deadline never slides: it stays through every run, crashes included, until the daemon
   is used again.
   */
  lemma {:induction false} DeadlineIsFixed(w: World, run: seq<Action>, id: Id)
    requires IsRun(w, run) && DeadlineSaved(w, id) && forall i | 0 <= i < |run| :: !Frees(run[i], id)
    ensures DeadlineSaved(After(w, run), id) && After(w, run).memory[id].deadline == w.memory[id].deadline
  {
    if run != [] {
      DeadlineIsFixed(w, run[..|run| - 1], id);
      DeadlineStep(After(w, run[..|run| - 1]), run[|run| - 1], id);
    }
  }
}
