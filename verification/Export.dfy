/** `export_live` of tools/archive_service.py: one baseline and the updates on it, from an archived day. */
module Export {
  import opened Wrappers
  import opened LiveSource
  import opened ArchiveModel
  import opened ArchiveTheorems
  import opened ArchiveContents
  import opened Gains

  datatype ExportError = NoState | NoBaseline

  predicate IsFull(e: Event) { e.kind.Baseline? || e.kind.Replacement? }

  /** The events at or before a time. */
  function UpTo(h: seq<Event>, at: int): seq<Event> {
    if h == [] then []
    else
      var before, last := UpTo(h[..|h| - 1], at), h[|h| - 1];
      if last.effective <= at then before + [last] else before
  }

  /** The timeline to export: the newest full state at or before the time, and what was selected after it. */
  function Timeline(h: seq<Event>, at: int): seq<Event> {
    if h == [] then []
    else
      var before, last := h[..|h| - 1], h[|h| - 1];
      if last.effective > at then Timeline(before, at)
      else if IsFull(last) then [last]
      else Timeline(before, at) + [last]
  }

  /** A replayable timeline: a full state, then deltas each from the version just before it. */
  ghost predicate Joined(t: seq<Event>) {
    && t != [] && IsFull(t[0])
    && forall i | 0 < i < |t| :: t[i].kind == Delta(t[i - 1].head.version)
  }

  // ----- The source's way of computing it -----

  /** The position of the newest full state among the selected events, or -1. */
  method NewestFull(selected: seq<Event>) returns (baseline: int)
    ensures -1 <= baseline < |selected|
    ensures baseline >= 0 ==> IsFull(selected[baseline])
    ensures forall j | baseline < j < |selected| :: !IsFull(selected[j])
  {
    baseline := -1;
    for i := 0 to |selected|
      invariant -1 <= baseline < i
      invariant baseline >= 0 ==> IsFull(selected[baseline])
      invariant forall j | baseline < j < i :: !IsFull(selected[j])
    {
      if IsFull(selected[i]) { baseline := i; }
    }
  }

  method Select(events: seq<Event>, product: Product, at: int) returns (selected: seq<Event>)
    ensures selected == UpTo(OfProduct(events, product), at)
  {
    selected := [];
    for i := 0 to |events|
      invariant selected == UpTo(OfProduct(events[..i], product), at)
    {
      SelectNext(events[..i], events[i], product, at);
      assert events[..i + 1] == events[..i] + [events[i]];
      if events[i].product == product && events[i].effective <= at { selected := selected + [events[i]]; }
    }
    assert events[..|events|] == events;
  }

  method ExportLive(events: seq<Event>, product: Product, at: int) returns (r: Result<seq<Event>, ExportError>)
    ensures var selected := UpTo(OfProduct(events, product), at);
            && (selected == [] <==> r == Failure(NoState))
            && (selected != [] && (forall i | 0 <= i < |selected| :: !IsFull(selected[i])) <==>
                  r == Failure(NoBaseline))
    ensures r.Success? ==> r.value == Timeline(OfProduct(events, product), at)
  {
    var selected := Select(events, product, at);
    if selected == [] { return Failure(NoState); }
    var baseline := NewestFull(selected);
    if baseline < 0 { return Failure(NoBaseline); }
    TimelineIsTail(OfProduct(events, product), at, baseline);
    r := Success(selected[baseline..]);
  }

  lemma SelectNext(events: seq<Event>, e: Event, product: Product, at: int)
    ensures var s := UpTo(OfProduct(events, product), at);
            UpTo(OfProduct(events + [e], product), at) == if e.product == product && e.effective <= at then s + [e]
                else s
  {
    var h := OfProduct(events, product);
    assert (events + [e])[..|events|] == events;
    if e.product == product { assert (h + [e])[..|h|] == h; }
  }

  ghost predicate NewestFullAt(s: seq<Event>, m: nat) {
    m < |s| && IsFull(s[m]) && forall j | m < j < |s| :: !IsFull(s[j])
  }

  lemma {:induction false} TimelineIsTail(h: seq<Event>, at: int, m: nat)
    requires NewestFullAt(UpTo(h, at), m)
    ensures Timeline(h, at) == UpTo(h, at)[m..]
    decreases |h|
  {
    if h != [] {
      var before, last, s := h[..|h| - 1], h[|h| - 1], UpTo(h, at);
      var s' := UpTo(before, at);
      if last.effective > at {
        TimelineIsTail(before, at, m);
      } else {
        assert s == s' + [last] && s[|s'|] == last;
        if IsFull(last) {
          assert s[m..] == [last];
        } else {
          assert forall j | 0 <= j < |s'| :: s'[j] == s[j];
          TimelineIsTail(before, at, m);
        }
      }
    }
  }

  // ----- One product's history -----

  /** How an event of one product follows the one before it. */
  ghost predicate FollowsOn(h: seq<Event>, i: nat)
    requires i < |h|
  {
    match h[i].kind
    case Baseline => i == 0 || h[i].gap
    case Delta(base) => i > 0 && h[i - 1].head.version == base
    case Replacement => i > 0
  }

  ghost predicate ProductHistory(h: seq<Event>) {
    forall i | 0 <= i < |h| :: FollowsOn(h, i)
  }

  lemma HistoryPrefix(h: seq<Event>, k: nat)
    requires ProductHistory(h) && k <= |h|
    ensures ProductHistory(h[..k])
  {
    forall i | 0 <= i < k ensures FollowsOn(h[..k], i) { assert FollowsOn(h, i); }
  }

  lemma {:induction false} HistoryOfProduct(events: seq<Event>, product: Product)
    requires History(events)
    ensures ProductHistory(OfProduct(events, product))
    ensures var h := OfProduct(events, product);
            LastOf(events, product) == if h == [] then None else Some(h[|h| - 1])
  {
    if events != [] {
      var before, last := events[..|events| - 1], events[|events| - 1];
      HistoryOfProduct(before, product);
      var h, h' := OfProduct(before, product), OfProduct(events, product);
      if last.product == product {
        assert h' == h + [last];
        forall i | 0 <= i < |h'| ensures FollowsOn(h', i) {
          if i < |h| { assert FollowsOn(h, i); }
        }
      }
    }
  }

  /** Effective times never go back. */
  ghost predicate TimesRise(h: seq<Event>) {
    forall i, j | 0 <= i < j < |h| :: h[i].effective <= h[j].effective
  }

  /**
   A selected delta whose base, the event just before it, was left out, while the newest event
   selected before it has another version, and no full state was selected from there on.
   */
  ghost predicate Hole(h: seq<Event>, at: int, j: nat) {
    && 0 < j < |h| && h[j].effective <= at && h[j - 1].effective > at
    && (forall k | j <= k < |h| && h[k].effective <= at :: !IsFull(h[k]))
    && var s := UpTo(h[..j], at);
    s == [] || s[|s| - 1].head.version != h[j - 1].head.version
  }

  ghost predicate HoleFree(h: seq<Event>, at: int) {
    forall j: nat :: !Hole(h, at, j)
  }

  /** Both selections end in the same event. */
  lemma {:induction false} SameEnd(h: seq<Event>, at: int)
    ensures var s, t := UpTo(h, at), Timeline(h, at);
            (s == [] <==> t == []) && (s != [] ==> t[|t| - 1] == s[|s| - 1])
    decreases |h|
  {
    if h != [] { SameEnd(h[..|h| - 1], at); }
  }

  /** Holes of a longer history that lie before its last event. */
  lemma HolesBefore(h: seq<Event>, at: int, j: nat)
    requires h != [] && j < |h| - 1 && (h[|h| - 1].effective > at || !IsFull(h[|h| - 1]))
    ensures Hole(h[..|h| - 1], at, j) <==> Hole(h, at, j)
  {
    var before := h[..|h| - 1];
    assert before[..j] == h[..j];
    assert forall k | 0 <= k < |before| :: before[k] == h[k];
  }

  lemma LastHole(h: seq<Event>, at: int)
    requires |h| > 1 && h[|h| - 1].effective <= at && !IsFull(h[|h| - 1])
    ensures var s := UpTo(h[..|h| - 1], at);
            Hole(h, at, |h| - 1) <==>
              h[|h| - 2].effective > at && (s == [] || s[|s| - 1].head.version != h[|h| - 2].head.version)
  {}

  lemma JoinedAppend(t: seq<Event>, last: Event)
    requires !IsFull(last)
    ensures Joined(t + [last]) <==> Joined(t) && last.kind == Delta(t[|t| - 1].head.version)
  {
    var t' := t + [last];
    assert forall k | 0 <= k < |t| :: t'[k] == t[k];
    if t == [] { assert t'[0] == last; }
    if Joined(t') { assert t'[|t|].kind == Delta(t'[|t| - 1].head.version); }
  }

  lemma {:induction false} JoinsIff(h: seq<Event>, at: int)
    requires ProductHistory(h) && UpTo(h, at) != []
    ensures Joined(Timeline(h, at)) <==> HoleFree(h, at)
    decreases |h|
  {
    var n := |h|;
    var before, last := h[..n - 1], h[n - 1];
    HistoryPrefix(h, n - 1);
    if last.effective <= at && IsFull(last) {
      forall j: nat ensures !Hole(h, at, j) { assert h[n - 1] == last; }
    } else {
      assert HoleFree(h, at) <==> HoleFree(before, at) && !Hole(h, at, n - 1) by { HolesFrame(h, at); }
      if last.effective > at {
        JoinsIff(before, at);
      } else {
        assert FollowsOn(h, n - 1);
        LastHole(h, at);
        SameEnd(before, at);
        JoinedAppend(Timeline(before, at), last);
        if UpTo(before, at) == [] {
          AllLeftOut(before, at);
        } else {
          JoinsIff(before, at);
          if h[n - 2].effective <= at { EndsSelected(before, at); }
        }
      }
    }
  }

  lemma HolesFrame(h: seq<Event>, at: int)
    requires h != [] && (h[|h| - 1].effective > at || !IsFull(h[|h| - 1]))
    ensures HoleFree(h, at) <==> HoleFree(h[..|h| - 1], at) && !Hole(h, at, |h| - 1)
  {
    var before := h[..|h| - 1];
    forall j: nat | j < |h| - 1 ensures Hole(before, at, j) <==> Hole(h, at, j) { HolesBefore(h, at, j); }
    assert forall j: nat | j >= |h| - 1 :: !Hole(before, at, j);
    assert forall j: nat | j > |h| - 1 :: !Hole(h, at, j);
  }

  lemma EndsSelected(h: seq<Event>, at: int)
    requires h != [] && h[|h| - 1].effective <= at
    ensures UpTo(h, at) != [] && UpTo(h, at)[|UpTo(h, at)| - 1] == h[|h| - 1]
  {}

  lemma AllLeftOut(h: seq<Event>, at: int)
    requires h != [] && UpTo(h, at) == []
    ensures h[|h| - 1].effective > at
  {}

  // ----- The promises -----

  /**
   For any batch history, an export at a time with captured state is replayable if and only if no
   selected delta follows a left-out event of another version than the one selected last.
   */
  lemma ExportJoinsIff(events: seq<Event>, product: Product, at: int)
    requires History(events) && UpTo(OfProduct(events, product), at) != []
    ensures var h := OfProduct(events, product);
            Joined(Timeline(h, at)) <==> HoleFree(h, at)
  {
    HistoryOfProduct(events, product);
    JoinsIff(OfProduct(events, product), at);
  }

  /**
   When a product's effective times never go back, every export at a time with captured state
   succeeds, is replayable, and ends in the last state at or before that time.
   */
  lemma ExportReachesState(events: seq<Event>, product: Product, at: int, k: nat)
    requires History(events)
    requires var h := OfProduct(events, product);
             TimesRise(h) && 0 < k <= |h| && h[k - 1].effective <= at && (k < |h| ==> h[k].effective > at)
    ensures var h := OfProduct(events, product);
            var t := Timeline(h, at);
            && Joined(t) && t[|t| - 1] == h[k - 1]
            && UpTo(h, at) == h[..k] && exists e | e in UpTo(h, at) :: IsFull(e)
  {
    var h := OfProduct(events, product);
    HistoryOfProduct(events, product);
    PrefixSelected(h, at, k);
    HistoryPrefix(h, k);
    forall i: nat | i < k
      ensures h[..k][i].effective <= at
    {
      assert i == k - 1 || h[i].effective <= h[k - 1].effective;
    }
    WholeReaches(h[..k], at);
  }

  /** A history of which everything is selected is exported whole, from its newest full state on. */
  lemma WholeReaches(p: seq<Event>, at: int)
    requires ProductHistory(p) && p != [] && forall i | 0 <= i < |p| :: p[i].effective <= at
    ensures var t := Timeline(p, at); Joined(t) && t[|t| - 1] == p[|p| - 1]
    ensures exists e | e in p :: IsFull(e)
  {
    EndsSelected(p, at);
    JoinsIff(p, at);
    SameEnd(p, at);
    assert FollowsOn(p, 0) && p[0] in p;
  }

  lemma {:induction false} PrefixSelected(h: seq<Event>, at: int, k: nat)
    requires TimesRise(h) && k <= |h| && (k > 0 ==> h[k - 1].effective <= at) && (k < |h| ==> h[k].effective > at)
    ensures UpTo(h, at) == h[..k] && Timeline(h, at) == Timeline(h[..k], at)
    decreases |h|
  {
    if k < |h| {
      var before := h[..|h| - 1];
      assert h[|h| - 1].effective > at;
      assert before[..k] == h[..k];
      PrefixSelected(before, at, k);
    } else {
      assert h[..k] == h;
      AllSelected(h, at);
    }
  }

  lemma {:induction false} AllSelected(h: seq<Event>, at: int)
    requires TimesRise(h) && (h != [] ==> h[|h| - 1].effective <= at)
    ensures UpTo(h, at) == h
  {
    if h != [] {
      var before := h[..|h| - 1];
      if |h| > 1 { assert h[|h| - 2].effective <= h[|h| - 1].effective; }
      AllSelected(before, at);
      assert h == before + [h[|h| - 1]];
    }
  }

  /** So it is for every batch the archive ever published, in the buffer or restored from a departed copy. */
  lemma ArchivedDayExports(quota: nat, run: seq<Action>, id: BatchId, product: Product, at: int, k: nat)
    requires IsRun(Initial(quota), run) && id in After(Initial(quota), run).published
    requires var w := After(Initial(quota), run);
             id in w.departed || id in w.batches
    requires var h := OfProduct(ContentOf(After(Initial(quota), run), id).events, product);
             TimesRise(h) && 0 < k <= |h| && h[k - 1].effective <= at && (k < |h| ==> h[k].effective > at)
    ensures var h := OfProduct(ContentOf(After(Initial(quota), run), id).events, product);
            var t := Timeline(h, at);
            Joined(t) && t[|t| - 1] == h[k - 1]
  {
    BatchesAreSound(quota, run, id);
    ExportReachesState(ContentOf(After(Initial(quota), run), id).events, product, at, k);
  }

  // ----- The times do matter -----

  /** What the collector commits for a version of time `mtime`, at time 0. */
  function Published(version: Version, kind: Kind, mtime: nat, dir: Dir): Event {
    EventOf("p", Made(kind, Head(version, Path("p", version, false), mtime, {}, false), false), dir, 0, 0)
  }

  /** A baseline, a delta published at time 2, and one on top of it whose file is dated back to time 1. */
  function Backdated(): seq<Event> {
    [Published("a", Baseline, 1, 0), Published("b", Delta("a"), 2, 1), Published("c", Delta("b"), 1, 2)]
  }

  lemma BackdatedTimeline()
    ensures OfProduct(Backdated(), "p") == Backdated()
    ensures Timeline(Backdated(), 1) == [Backdated()[0], Backdated()[2]]
    ensures !Joined(Timeline(Backdated(), 1))
  {
    var h := Backdated();
    assert h[..2][..1] == [h[0]] && h[..2][1] == h[1] && h[..2] == [h[0], h[1]] && [h[0]][..0] == [];
    assert OfProduct([h[0]], "p") == [h[0]] && OfProduct(h[..2], "p") == h[..2];
    assert Timeline([h[0]], 1) == [h[0]] && Timeline(h[..2], 1) == [h[0]];
    assert Timeline(h, 1)[1] == h[2] && h[2].kind != Delta(h[0].head.version);
  }

  lemma CommitOne(w0: World, run: seq<Action>, e: Event) returns (longer: seq<Action>)
    requires IsRun(w0, run) && After(w0, run).batches.Keys == {0} && Writable(After(w0, run), 0) && e.bytes == 0
    requires !e.gap
    requires var b := After(w0, run).batches[0]; e.dir !in b.dirs && !Committed(b, e.dir) && Joins(b, e) && b.usage == 0
    ensures IsRun(w0, longer)
    ensures var w := After(w0, run);
            var b := w.batches[0];
            After(w0, longer) == Put(w, 0,
                b.(dirs := b.dirs + {e.dir}, events := b.events + [e], heads := b.heads[e.product := e.head]))
  {
    Then(w0, run, MakeEventDir(0, e.dir));
    longer := run + [MakeEventDir(0, e.dir)];
    var w := After(w0, longer);
    UsageWithout(w.batches, 0);
    assert w.batches - {0} == map[];
    Then(w0, longer, CommitEvent(0, e, 0));
    longer := longer + [CommitEvent(0, e, 0)];
  }

  /** The first collection of a day: its batch opens with the baseline, and then becomes active. */
  lemma FirstState() returns (run: seq<Action>)
    ensures IsRun(Initial(0), run)
    ensures var w, e := After(Initial(0), run), Backdated()[0];
            && w.active == map["s" := 0] && w.published == {0}
            && w.batches == map[0 := EmptyDay(1, None).(events := [e], heads := map["p" := e.head], dirs := {0})]
  {
    run := PrepareDay(Initial(0), [], 0, 1);
    var b, e := EmptyDay(1, None), Backdated()[0];
    assert After(Initial(0), run).batches == map[0 := b];
    run := CommitOne(Initial(0), run, e);
    var b' := b.(events := [e], heads := map["p" := e.head], dirs := {0});
    assert b.events + [e] == [e] && b.heads["p" := e.head] == map["p" := e.head] && b.dirs + {0} == {0};
    assert After(Initial(0), run).batches == map[0 := b'];
    Then(Initial(0), run, SwapPointer("s", 0));
    run := run + [SwapPointer("s", 0)];
  }

  /** Such a day can be archived, and its export at time 1 is broken. */
  lemma BackdatedDeltaBreaks() returns (run: seq<Action>)
    ensures IsRun(Initial(0), run)
    ensures var w := After(Initial(0), run);
            && 0 in w.published && 0 in w.batches && OfProduct(w.batches[0].events, "p") == Backdated()
            && !Joined(Timeline(OfProduct(w.batches[0].events, "p"), 1))
  {
    run := FirstState();
    run := CommitOne(Initial(0), run, Backdated()[1]);
    run := CommitOne(Initial(0), run, Backdated()[2]);
    assert After(Initial(0), run).batches[0].events == Backdated();
    BackdatedTimeline();
  }
}
