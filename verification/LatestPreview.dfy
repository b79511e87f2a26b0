/**
 The single-in-flight preview queue of tools/chart_cutline_editor_assets/latest-preview.js.

 The asynchronous pump is split wherever other code can run: while a request is awaited, and
 while one of the two callbacks, which may call `submit` or `reset` itself, is on the stack.
 */
module LatestPreview {
  import opened Wrappers

  datatype Job<V> = Job(value: V, generation: nat)

  /** Where the pump is: not running, or suspended at an await, or inside a callback. */
  datatype Phase<V> = Idle | Awaiting(job: Job<V>) | InReceive(job: Job<V>) | InFail(job: Job<V>)

  datatype Answer<V> = Received(job: Job<V>) | Failed(job: Job<V>)

  /** `requests` and `answers` record every call made to the transport and to the two callbacks. */
  datatype State<V> = State(
    generation: nat, pending: Option<Job<V>>, phase: Phase<V>,
    requests: seq<Job<V>>, answers: seq<Answer<V>>)

  /** Calls into the queue, settlements of the awaited request, and ends of the running callback. */
  datatype Event<V> = Submit(value: V) | Reset | Resolve | Reject | Return | Throw

  predicate Enabled<V>(s: State<V>, e: Event<V>) {
    match e
    case Submit(_) => true
    case Reset => true
    case Resolve => s.phase.Awaiting?
    case Reject => s.phase.Awaiting?
    case Return => s.phase.InReceive? || s.phase.InFail?
    case Throw => s.phase.InReceive? || s.phase.InFail?
  }

  /** The head of `while (pending)`: issue the pending request or leave the loop. */
  function Pump<V>(s: State<V>): State<V> {
    match s.pending
    case None => s.(phase := Idle)
    case Some(job) => s.(pending := None, phase := Awaiting(job), requests := s.requests + [job])
  }

  /** The catch clause: report the failure unless the job has been superseded. */
  function CatchClause<V>(s: State<V>, job: Job<V>): State<V> {
    if job.generation != s.generation then Pump(s)
    else s.(answers := s.answers + [Failed(job)], phase := InFail(job))
  }

  function Step<V>(s: State<V>, e: Event<V>): State<V>
    requires Enabled(s, e)
  {
    match e
    case Submit(v) =>
      var s1 := s.(generation := s.generation + 1, pending := Some(Job(v, s.generation + 1)));
      if s.phase.Idle? then Pump(s1) else s1
    case Reset => s.(generation := s.generation + 1, pending := None)
    case Resolve =>
      var job := s.phase.job;
      if job.generation != s.generation then Pump(s)
      else s.(answers := s.answers + [Received(job)], phase := InReceive(job))
    case Reject => CatchClause(s, s.phase.job)
    case Return => Pump(s)
    case Throw => if s.phase.InReceive? then CatchClause(s, s.phase.job) else s.(phase := Idle)
  }

  predicate IsRun<V>(es: seq<Event<V>>)
    decreases |es|, 0
  {
    es == [] || (IsRun(es[..|es| - 1]) && Enabled(After(es[..|es| - 1]), es[|es| - 1]))
  }

  /** The state after a whole run of calls, settlements and callback ends. */
  function After<V>(es: seq<Event<V>>): State<V>
    requires IsRun(es)
    decreases |es|, 1
  {
    if es == [] then State(0, None, Idle, [], []) else Step(After(es[..|es| - 1]), es[|es| - 1])
  }

  // ----- The queue as an object -----

  class Queue<V(==)> {
    var generation: nat
    var pending: Option<Job<V>>
    var running: bool
    var phase: Phase<V>
    var requests: seq<Job<V>>
    var answers: seq<Answer<V>>

    ghost predicate Valid()
      reads this
    {
      running <==> !phase.Idle?
    }

    function View(): State<V>
      reads this
    {
      State(generation, pending, phase, requests, answers)
    }

    constructor ()
      ensures Valid() && View() == After([])
    {
      generation, pending, running, phase, requests, answers := 0, None, false, Idle, [], [];
    }

    /** One turn of the loop, up to the next await or the end of `pump`. */
    method Turn()
      requires running
      modifies this
      ensures Valid() && View() == Pump(old(View()))
    {
      if pending.Some? {
        var current := pending.value;
        pending := None;
        requests := requests + [current];
        phase := Awaiting(current);
      } else {
        running := false;
        phase := Idle;
      }
    }

    method Submit(value: V)
      requires Valid()
      modifies this
      ensures Valid() && View() == Step(old(View()), Event.Submit(value))
    {
      generation := generation + 1;
      pending := Some(Job(value, generation));
      if !running {
        running := true;
        Turn();
      }
    }

    method Reset()
      requires Valid()
      modifies this
      ensures Valid() && View() == Step(old(View()), Event.Reset)
    {
      generation := generation + 1;
      pending := None;
    }

    /** The awaited request settles: the code between the await and the end of its callback's call. */
    method Settle(ok: bool)
      requires Valid() && phase.Awaiting?
      modifies this
      ensures Valid() && View() == Step(old(View()), if ok then Resolve else Reject)
    {
      var current := phase.job;
      if current.generation != generation {
        Turn();
      } else if ok {
        answers := answers + [Received(current)];
        phase := InReceive(current);
      } else {
        answers := answers + [Failed(current)];
        phase := InFail(current);
      }
    }

    /** The running callback returns or throws. */
    method CallbackEnds(throws: bool)
      requires Valid() && (phase.InReceive? || phase.InFail?)
      modifies this
      ensures Valid() && View() == Step(old(View()), if throws then Throw else Return)
    {
      if !throws {
        Turn();
      } else if phase.InReceive? {
        var current := phase.job;
        if current.generation == generation {
          answers := answers + [Failed(current)];
          phase := InFail(current);
        } else {
          Turn();
        }
      } else {
        running := false;
        phase := Idle;
      }
    }
  }

  // ----- What the queue promises, in terms of the calls alone -----

  function Calls<V>(es: seq<Event<V>>): nat {
    if es == [] then 0
    else Calls(es[..|es| - 1]) + (if es[|es| - 1].Submit? || es[|es| - 1].Reset? then 1 else 0)
  }

  /** The newest submission that no later reset withdrew. */
  function Live<V>(es: seq<Event<V>>): Option<Job<V>> {
    if es == [] then None
    else
      var before := es[..|es| - 1];
      match es[|es| - 1]
      case Submit(v) => Some(Job(v, Calls(before) + 1))
      case Reset => None
      case _ => Live(before)
  }

  /** Requests are issued oldest first, and a pending submission is newer than all of them. */
  ghost predicate Ordered<V>(s: State<V>) {
    && (forall i | 0 <= i < |s.requests| :: s.requests[i].generation <= s.generation)
    && (forall i, j | 0 <= i < j < |s.requests| :: s.requests[i].generation < s.requests[j].generation)
    && (s.pending.Some? ==>
          && s.pending.value.generation == s.generation
          && forall i | 0 <= i < |s.requests| :: s.requests[i].generation < s.generation)
    && (!s.phase.Idle? ==> s.requests != [] && s.requests[|s.requests| - 1] == s.phase.job)
  }

  ghost predicate Answered<V>(s: State<V>, job: Job<V>) {
    Received(job) in s.answers || Failed(job) in s.answers
  }

  /** The live submission is waiting, in flight, or has been answered. */
  ghost predicate Tracked<V>(s: State<V>, live: Option<Job<V>>) {
    match live
    case None => s.pending.None? && forall i | 0 <= i < |s.requests| :: s.requests[i].generation < s.generation
    case Some(job) =>
      && job.generation == s.generation
      && (s.pending == live || job in s.requests)
      && (job in s.requests && s.phase != Awaiting(job) ==> Answered(s, job))
  }

  /** No answer is repeated, and both answers go to a job only after its `receive` threw. */
  ghost predicate AnsweredOnce<V>(s: State<V>) {
    && (forall i, j | 0 <= i < j < |s.answers| :: s.answers[i] != s.answers[j])
    && (forall a | a in s.answers :: a.job in s.requests)
    && (s.phase.Awaiting? ==> forall a | a in s.answers :: a.job != s.phase.job)
    && (s.phase.InReceive? ==> Failed(s.phase.job) !in s.answers)
  }

  ghost predicate Inv<V>(s: State<V>, calls: nat, live: Option<Job<V>>) {
    s.generation == calls && Ordered(s) && Tracked(s, live) && AnsweredOnce(s)
  }

  lemma StepOrdered<V>(s: State<V>, e: Event<V>)
    requires Enabled(s, e) && Ordered(s)
    ensures Ordered(Step(s, e))
  {}

  lemma StepTracked<V>(s: State<V>, e: Event<V>, live: Option<Job<V>>)
    requires Enabled(s, e) && Ordered(s) && Tracked(s, live)
    ensures Tracked(Step(s, e), match e
                                case Submit(v) => Some(Job(v, s.generation + 1))
                                case Reset => None
                                case _ => live)
  {
    var s' := Step(s, e);
    assert forall a | a in s.answers :: a in s'.answers;
    if s'.answers != s.answers { assert s'.answers[|s.answers|] in s'.answers; }
    if s'.requests != s.requests { assert s'.requests[|s.requests|] in s'.requests; }
    assert forall j | j in s.requests :: j in s'.requests;
  }

  lemma StepAnswers<V>(s: State<V>, e: Event<V>)
    requires Enabled(s, e) && Ordered(s) && AnsweredOnce(s)
    ensures AnsweredOnce(Step(s, e))
  {
    var s' := Step(s, e);
    assert forall j | j in s.requests :: j in s'.requests;
    if s'.requests != s.requests { assert s'.requests[|s.requests|] in s'.requests; }
  }

  lemma {:induction false} InvHolds<V>(es: seq<Event<V>>)
    requires IsRun(es)
    ensures Inv(After(es), Calls(es), Live(es))
    decreases |es|
  {
    if es != [] {
      var before, e := es[..|es| - 1], es[|es| - 1];
      InvHolds(before);
      StepOrdered(After(before), e);
      StepTracked(After(before), e, Live(before));
      StepAnswers(After(before), e);
    }
  }

  // ----- The promises -----

  /** The latest live submission is the only one whose generation is current. */
  lemma CurrentIsLive<V>(es: seq<Event<V>>, job: Job<V>)
    requires IsRun(es) && job in After(es).requests && job.generation == After(es).generation
    ensures Live(es) == Some(job)
  {
    var s := After(es);
    InvHolds(es);
    var k :| 0 <= k < |s.requests| && s.requests[k] == job;
    if Live(es).Some? {
      assert s.pending != Live(es);
      var m :| 0 <= m < |s.requests| && s.requests[m] == Live(es).value;
      assert !(k < m) && !(m < k);
    }
  }

  /** An answer is only ever given to the newest submission that no reset has withdrawn. */
  lemma OnlyLatestIsAnswered<V>(es: seq<Event<V>>, e: Event<V>)
    requires IsRun(es) && Enabled(After(es), e)
    ensures var s, s' := After(es), Step(After(es), e);
            s'.answers == s.answers
            || (s'.answers == s.answers + [s'.answers[|s.answers|]] && Live(es) == Some(s'.answers[|s.answers|].job))
  {
    var s, s' := After(es), Step(After(es), e);
    InvHolds(es);
    if s'.answers != s.answers {
      var job := s'.answers[|s.answers|].job;
      assert s.requests[|s.requests| - 1] == job;
      CurrentIsLive(es, job);
    }
  }

  /**
   The answer that an event brings: how the request ended, for the submission still wanted, or a throw
   from `receive`.
   */
  ghost function Brings<V>(live: Option<Job<V>>, phase: Phase<V>, e: Event<V>): seq<Answer<V>> {
    if phase.Awaiting? && live == Some(phase.job) && e.Resolve? then [Received(phase.job)]
    else if phase.Awaiting? && live == Some(phase.job) && e.Reject? then [Failed(phase.job)]
    else if phase.InReceive? && live == Some(phase.job) && e.Throw? then [Failed(phase.job)]
    else []
  }

  /** Every answer is the one its event brings, and none that an event brings is left out. */
  lemma AnswersAreBrought<V>(es: seq<Event<V>>, e: Event<V>)
    requires IsRun(es) && Enabled(After(es), e)
    ensures Step(After(es), e).answers == After(es).answers + Brings(Live(es), After(es).phase, e)
  {
    var s := After(es);
    InvHolds(es);
    if !s.phase.Idle? {
      assert s.requests[|s.requests| - 1] == s.phase.job;
      if s.phase.job.generation == s.generation { CurrentIsLive(es, s.phase.job); }
    }
  }

  /** A request is issued only while none is awaited, for the live submission, newer than all before. */
  lemma OneInFlight<V>(es: seq<Event<V>>, e: Event<V>)
    requires IsRun(es) && Enabled(After(es), e)
    ensures var s, s' := After(es), Step(After(es), e);
            s'.requests != s.requests ==>
              && (s.phase.Awaiting? ==> e.Resolve? || e.Reject?)
              && s'.phase.Awaiting? && s'.requests == s.requests + [s'.phase.job]
              && Live(es + [e]) == Some(s'.phase.job)
              && forall i | 0 <= i < |s.requests| :: s.requests[i].generation < s'.phase.job.generation
  {
    var s, s' := After(es), Step(After(es), e);
    InvHolds(es);
    assert (es + [e])[..|es|] == es;
    if s'.requests != s.requests {
      assert s'.requests[|s.requests|] == s'.phase.job;
      CurrentIsLive(es + [e], s'.phase.job);
    }
  }

  /** No answer is given twice, and a job is both received and failed only if its `receive` threw. */
  lemma AnsweredAtMostOnce<V>(es: seq<Event<V>>, e: Event<V>)
    requires IsRun(es) && Enabled(After(es), e)
    ensures AnsweredOnce(After(es))
    ensures var s, s' := After(es), Step(After(es), e);
            s'.answers != s.answers && Answered(s, s'.answers[|s.answers|].job) ==>
              s.phase.InReceive? && e.Throw? && s'.answers[|s.answers|].Failed?
  {
    InvHolds(es);
  }

  /**
   When the pump is idle, the submission still wanted has been answered, except in exactly one
   case: the last thing to happen was a throw out of `fail`, after that callback had itself
   submitted again.
   */
  lemma IdleMeansAnswered<V>(es: seq<Event<V>>, e: Event<V>)
    requires IsRun(es) && Enabled(After(es), e) && Step(After(es), e).phase.Idle? && Live(es + [e]).Some?
    ensures var s, s', job := After(es), Step(After(es), e), Live(es + [e]).value;
            && (Answered(s', job) <==> s'.pending.None?)
            && (Answered(s', job) <==> !(e.Throw? && s.phase.InFail? && s.pending.Some?))
  {
    InvHolds(es);
    assert (es + [e])[..|es|] == es;
    InvHolds(es + [e]);
    var s', job := Step(After(es), e), Live(es + [e]).value;
    if Answered(s', job) {
      assert job in s'.requests;
    }
  }

  /** That case does occur: nothing is in flight, and the resubmitted value stays unsent. */
  lemma ThrowingFailStrands<V>(a: V, b: V)
    ensures var es := [Submit(a), Reject, Submit(b), Throw];
            IsRun(es) && After(es).phase.Idle? && Live(es) == Some(Job(b, 2)) && !Answered(After(es), Job(b, 2))
  {
    var es := [Submit(a), Reject, Submit(b), Throw];
    var e0: seq<Event<V>> := [];
    var e3, e2, e1 := [Submit(a), Reject, Submit(b)], [Submit(a), Reject], [Submit(a)];
    assert e1[..0] == e0 && e2[..1] == e1 && e3[..2] == e2 && es[..3] == e3;
    assert IsRun(e0) && After(e0) == State(0, None, Idle, [], []) && Calls(e0) == 0;
    assert IsRun(e1) && After(e1) == State(1, None, Awaiting(Job(a, 1)), [Job(a, 1)], []) && Calls(e1) == 1;
    assert IsRun(e2) && After(e2) == State(1, None, InFail(Job(a, 1)), [Job(a, 1)], [Failed(Job(a, 1))]);
    assert Calls(e2) == 1;
    assert IsRun(e3) && After(e3) == After(e2).(generation := 2, pending := Some(Job(b, 2)));
    assert Live(e3) == Some(Job(b, 2));
    assert After(es).answers == [Failed(Job(a, 1))];
  }
}
