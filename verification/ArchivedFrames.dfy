/**
 Full-frame products in the archive: what tools/live_feed_archive.py answers, poll after poll, and
 tools/product_archive.py commits, day after day, is every published frame exactly once.
 */
module ArchivedFrames {
  import opened Wrappers
  import opened LiveSource
  import opened FullFrames
  import opened ArchiveModel
  import opened ArchiveContents
  import opened Gains
  import opened Collector
  import Export

  ghost function HeadsIn(es: seq<Event>): seq<Head> { seq(|es|, i requires 0 <= i < |es| => es[i].head) }

  /** The heads of a product's events, in the order they were committed. */
  ghost function HeadsOf(b: Batch, product: Product): seq<Head> { HeadsIn(OfProduct(b.events, product)) }

  /** The same over several days; each new day opens with the state the old one ended with. */
  ghost function LogOf(days: seq<Batch>, product: Product): seq<Head> {
    if days == [] then []
    else Joined(LogOf(days[..|days| - 1], product), HeadsOf(days[|days| - 1], product))
  }

  function Joined(before: seq<Head>, today: seq<Head>): seq<Head> {
    if before == [] || today == [] then before + today else before + today[1..]
  }

  lemma JoinedAppend(before: seq<Head>, today: seq<Head>, more: seq<Head>)
    requires today != []
    ensures Joined(before, today + more) == Joined(before, today) + more
  {
    if before == [] {
      assert before + (today + more) == (before + today) + more;
    } else {
      assert (today + more)[1..] == today[1..] + more;
      assert before + (today[1..] + more) == (before + today[1..]) + more;
    }
  }

  /** The frames published so far, and the batches of all days so far. */
  datatype Tape = Tape(frames: Frames, days: seq<Batch>)

  ghost function Today(t: Tape): Batch
    requires t.days != []
  {
    t.days[|t.days| - 1]
  }

  /** Nothing but the running day changed. */
  ghost predicate SameDays(t: Tape, t': Tape) {
    && t.days != [] && |t'.days| == |t.days|
    && t'.days[..|t.days| - 1] == t.days[..|t.days| - 1]
  }

  /**
   A poll's answer in the light of the frames published by then: the listing showed them, nothing of the
   answer had expired or was renamed when it was read, and the head was not set back.
   */
  ghost predicate Calm(t: Tape, frames: Frames, product: Product, feed: Feed, head: Head, look: nat, u: seq<Head>,
                       es: seq<Event>)
    requires t.days != [] && product in Today(t).heads
  {
    && Grows(t.frames, frames)
    && FramesShown(feed.stores(look), feed.listings(look, product), product, frames, Today(t).heads[product], head)
    && (head.version == Today(t).heads[product].version || head.version !in VersionsOf(LogOf(t.days, product)))
    && forall i | 0 <= i < |es| && i < |u| :: es[i].head == u[i]
  }

  /** The product advanced by what its source answered to a calm poll. */
  ghost predicate PollStep(t: Tape, t': Tape, product: Product, feed: Feed, at: int, lo: nat, hi: nat, head: Head,
                           cutoff: Option<int>, look: nat, u: seq<Head>, es: seq<Event>) {
    && SameDays(t, t') && HeadsExact(Today(t))
    && MovedBy(feed, at, lo, hi, product, head, cutoff, Today(t), Today(t'), look, u, es)
    && Calm(t, t'.frames, product, feed, head, look, u, es)
  }

  /** The collector works on something else. */
  ghost predicate OtherStep(t: Tape, t': Tape, product: Product) {
    SameDays(t, t') && Grows(t.frames, t'.frames) && Same(product, Today(t), Today(t'))
  }

  /** A new day opens with the product's committed state, which has not expired and was not renamed. */
  ghost predicate RotateStep(t: Tape, t': Tape, product: Product, feed: Feed, at: int, lo: nat, hi: nat, look: nat,
                             e: Event) {
    && t.days != [] && product in Today(t).heads && HeadsExact(Today(t)) && Grows(t.frames, t'.frames)
    && |t'.days| == |t.days| + 1 && t'.days[..|t.days|] == t.days
    && BegunBy(feed, at, lo, hi, product, Today(t).heads[product], NEW_BATCH, Today(t'), look, e)
    && e.head == Today(t).heads[product]
  }

  ghost predicate Step(t: Tape, t': Tape, product: Product) {
    || (exists feed, at, lo, hi, head, cutoff, look, u, es ::
          PollStep(t, t', product, feed, at, lo, hi, head, cutoff, look, u, es))
    || OtherStep(t, t', product)
    || (exists feed, at, lo, hi, look, e :: RotateStep(t, t', product, feed, at, lo, hi, look, e))
  }

  /** The product's first event is a full state of a frame published by then. */
  ghost predicate FirstDay(t: Tape, product: Product) {
    |t.days| == 1 && Started(Snapshot(t.frames, HeadsOf(t.days[0], product)))
  }

  ghost predicate IsTape(h: seq<Tape>, product: Product) {
    && h != []
    && if |h| == 1 then FirstDay(h[0], product)
       else IsTape(h[..|h| - 1], product) && Step(h[|h| - 2], h[|h| - 1], product)
  }

  /** The committed head is the last one of the running day. */
  lemma CursorIsLast(b: Batch, product: Product)
    requires product in b.heads && HeadsExact(b)
    ensures var h := HeadsOf(b, product); h != [] && h[|h| - 1] == b.heads[product]
  {
    EndsOfProduct(b.events, product);
  }

  ghost predicate EndsWith(log: seq<Head>, today: seq<Head>) {
    0 < |today| <= |log| && log[|log| - |today|..] == today
  }

  /** The log ends with the running day. */
  ghost predicate Running(t: Tape, product: Product) {
    t.days != [] && EndsWith(LogOf(t.days, product), HeadsOf(Today(t), product))
  }

  /** After the state the day opened with, everything counts from its publication on. */
  ghost predicate DayDated(b: Batch, product: Product) {
    var es := OfProduct(b.events, product);
    forall i | 0 < i < |es| && es[i].head.mtime != 0 :: es[i].effective == es[i].head.mtime
  }

  ghost predicate Kept(t: Tape, product: Product) {
    Running(t, product) && Faithful(t.frames, LogOf(t.days, product)) && DayDated(Today(t), product)
  }

  lemma FirstDayIsKept(t: Tape, product: Product)
    requires FirstDay(t, product)
    ensures Kept(t, product)
  {
    assert t.days[..0] == [];
    assert LogOf(t.days, product) == [] + HeadsOf(t.days[0], product);
    StartIsFaithful(Snapshot(t.frames, HeadsOf(t.days[0], product)));
  }

  lemma PollExtends(t: Tape, t': Tape, product: Product, more: seq<Head>)
    requires SameDays(t, t') && Running(t, product)
    requires HeadsOf(Today(t'), product) == HeadsOf(Today(t), product) + more
    ensures LogOf(t'.days, product) == LogOf(t.days, product) + more && Running(t', product)
  {
    JoinedAppend(LogOf(t.days[..|t.days| - 1], product), HeadsOf(Today(t), product), more);
    EndsLater(LogOf(t.days, product), HeadsOf(Today(t), product), more);
  }

  lemma EndsLater(log: seq<Head>, today: seq<Head>, more: seq<Head>)
    requires EndsWith(log, today)
    ensures EndsWith(log + more, today + more)
  {
    assert (log + more)[|log| - |today|..] == log[|log| - |today|..] + more;
  }

  /** Committing part of a complete answer keeps the record exact. */
  lemma FaithfulByPoll(frames: Frames, frames': Frames, log: seq<Head>, head: Head, u: seq<Head>, n: nat)
    requires Faithful(frames, log) && Grows(frames, frames') && n <= |u| && head.version !in VersionsOf(log)
    requires Complete(frames', log[|log| - 1], head, u) && Annotated(log[|log| - 1], u)
    ensures Faithful(frames', log + u[..n])
  {
    var a, b := Snapshot(frames, log), Snapshot(frames', log + u[..n]);
    assert Poll(a, b, head, u, n);
    PollKeepsFaithful(a, b);
  }

  lemma GainedHeads(b: Batch, b': Batch, product: Product, es: seq<Event>, u: seq<Head>)
    requires OfProduct(b'.events, product) == OfProduct(b.events, product) + es && |es| <= |u|
    requires forall i | 0 <= i < |es| :: es[i].head == u[i]
    ensures HeadsOf(b', product) == HeadsOf(b, product) + u[..|es|]
  {}

  lemma RunningCursor(t: Tape, product: Product)
    requires Running(t, product) && product in Today(t).heads && HeadsExact(Today(t))
    ensures var log := LogOf(t.days, product); log != [] && log[|log| - 1] == Today(t).heads[product]
  {
    CursorIsLast(Today(t), product);
    var log, today := LogOf(t.days, product), HeadsOf(Today(t), product);
    assert log[|log| - 1] == log[|log| - |today|..][|today| - 1];
  }

  /** An idle poll answers nothing; any other a complete sequence of frames. */
  lemma PollIsFaithful(frames: Frames, frames': Frames, log: seq<Head>, product: Product, feed: Feed, look: nat,
                       head: Head, u: seq<Head>, n: nat)
    requires Faithful(frames, log) && Grows(frames, frames') && n <= |u|
    requires Answered(feed, look, product, log[|log| - 1], head, u)
    requires FramesShown(feed.stores(look), feed.listings(look, product), product, frames', log[|log| - 1], head)
    requires head.version == log[|log| - 1].version || head.version !in VersionsOf(log)
    ensures Faithful(frames', log + u[..n])
  {
    if head.version == log[|log| - 1].version {
      assert log + u[..n] == log;
      GrowsFaithful(frames, frames', log);
    } else {
      ShownIsComplete(feed.stores(look), feed.listings(look, product), product, frames', log[|log| - 1], head, u);
      FaithfulByPoll(frames, frames', log, head, u, n);
    }
  }

  /** An update counts from its publication on. */
  lemma TakenIsDated(feed: Feed, at: int, lo: nat, hi: nat, product: Product, previous: Head, es: seq<Event>,
                     u: seq<Head>)
    requires TakenAll(feed, at, lo, hi, product, previous, es, u)
    ensures forall i | 0 <= i < |es| && es[i].head.mtime != 0 :: es[i].effective == es[i].head.mtime
  {
    forall i | 0 <= i < |es| && es[i].head.mtime != 0 ensures es[i].effective == es[i].head.mtime {
      UpdateIsDated(feed, at, lo, hi, es[i], product, Before(previous, es, i), u[i]);
    }
  }

  lemma UpdateIsDated(feed: Feed, at: int, lo: nat, hi: nat, e: Event, product: Product, previous: Head, update: Head)
    requires TakenWithin(feed, at, lo, hi, e, product, previous, update) && e.head.mtime != 0
    ensures e.effective == e.head.mtime
  {
    var look: nat :| lo <= look < hi && TakenAt(feed, at, look, e, product, previous, update);
    assert MakeUpdate(feed.stores(look), product, previous, update).value.kind == e.kind;
  }

  lemma DatedLater(b: Batch, b': Batch, product: Product, es: seq<Event>)
    requires DayDated(b, product) && OfProduct(b'.events, product) == OfProduct(b.events, product) + es
    requires forall i | 0 <= i < |es| && es[i].head.mtime != 0 :: es[i].effective == es[i].head.mtime
    ensures DayDated(b', product)
  {}

  lemma PollKeeps(t: Tape, t': Tape, product: Product, feed: Feed, at: int, lo: nat, hi: nat, head: Head,
                  cutoff: Option<int>, look: nat, u: seq<Head>, es: seq<Event>)
    requires Kept(t, product) && PollStep(t, t', product, feed, at, lo, hi, head, cutoff, look, u, es)
    ensures Kept(t', product)
  {
    RunningCursor(t, product);
    assert DayDated(Today(t'), product) by {
      TakenIsDated(feed, at, lo, hi, product, Today(t).heads[product], es, u);
      DatedLater(Today(t), Today(t'), product, es);
    }
    GainedHeads(Today(t), Today(t'), product, es, u);
    PollExtends(t, t', product, u[..|es|]);
    assert Faithful(t'.frames, LogOf(t.days, product) + u[..|es|]) by {
      PollIsFaithful(t.frames, t'.frames, LogOf(t.days, product), product, feed, look, head, u, |es|);
    }
  }

  lemma RotateLog(t: Tape, t': Tape, product: Product, feed: Feed, at: int, lo: nat, hi: nat, look: nat, e: Event)
    requires Running(t, product) && RotateStep(t, t', product, feed, at, lo, hi, look, e)
    ensures LogOf(t'.days, product) == LogOf(t.days, product) && Running(t', product)
  {
    RunningCursor(t, product);
    assert OfProduct(NEW_BATCH.events, product) == [];
    assert HeadsOf(Today(t'), product) == [e.head];
    assert Joined(LogOf(t.days, product), [e.head]) == LogOf(t.days, product);
  }

  lemma RotateKeeps(t: Tape, t': Tape, product: Product, feed: Feed, at: int, lo: nat, hi: nat, look: nat, e: Event)
    requires Kept(t, product) && RotateStep(t, t', product, feed, at, lo, hi, look, e)
    ensures Kept(t', product)
  {
    RotateLog(t, t', product, feed, at, lo, hi, look, e);
    GrowsFaithful(t.frames, t'.frames, LogOf(t.days, product));
  }

  lemma OtherKeeps(t: Tape, t': Tape, product: Product)
    requires Kept(t, product) && OtherStep(t, t', product)
    ensures Kept(t', product)
  {
    assert HeadsOf(Today(t'), product) == HeadsOf(Today(t), product) + [];
    PollExtends(t, t', product, []);
    assert LogOf(t.days, product) + [] == LogOf(t.days, product);
    GrowsFaithful(t.frames, t'.frames, LogOf(t.days, product));
  }

  lemma StepKeeps(t: Tape, t': Tape, product: Product)
    requires Kept(t, product) && Step(t, t', product)
    ensures Kept(t', product)
  {
    if OtherStep(t, t', product) {
      OtherKeeps(t, t', product);
    } else if feed, at, lo, hi, look, e :| RotateStep(t, t', product, feed, at, lo, hi, look, e) {
      RotateKeeps(t, t', product, feed, at, lo, hi, look, e);
    } else {
      var feed, at, lo, hi, head, cutoff, look, u, es :|
        PollStep(t, t', product, feed, at, lo, hi, head, cutoff, look, u, es);
      PollKeeps(t, t', product, feed, at, lo, hi, head, cutoff, look, u, es);
    }
  }

  /**
   Over every sequence of polls and rotations during which nothing expires, the events archived for a
   full-frame product are its published frames: every one since the first, once, and in order.
   */
  lemma {:induction false} ArchivedOnce(h: seq<Tape>, product: Product)
    requires IsTape(h, product)
    ensures Running(h[|h| - 1], product) && Faithful(h[|h| - 1].frames, LogOf(h[|h| - 1].days, product))
    ensures DayDated(Today(h[|h| - 1]), product)
    decreases |h|
  {
    if |h| == 1 {
      FirstDayIsKept(h[0], product);
    } else {
      ArchivedOnce(h[..|h| - 1], product);
      assert Kept(h[|h| - 2], product);
      StepKeeps(h[|h| - 2], h[|h| - 1], product);
    }
  }

  // ----- A poll that is taken whole -----

  /** Up to the head a whole poll leaves nothing out, unless the head was committed before and the frame is its twin. */
  ghost predicate Delivers(frames: Frames, log: seq<Head>, log': seq<Head>, head: Head)
    requires log != []
  {
    var cursor := log[|log| - 1];
    forall v | v in frames && log[0].mtime <= frames[v] <= head.mtime ::
      v in VersionsOf(log') <==> head.version != cursor.version || frames[v] < head.mtime || v in Seen(cursor)
  }

  lemma WholePollDelivers(frames: Frames, frames': Frames, log: seq<Head>, product: Product, feed: Feed, look: nat,
                          head: Head, u: seq<Head>)
    requires Faithful(frames, log) && Grows(frames, frames')
    requires Answered(feed, look, product, log[|log| - 1], head, u)
    requires FramesShown(feed.stores(look), feed.listings(look, product), product, frames', log[|log| - 1], head)
    requires head.version == log[|log| - 1].version || head.version !in VersionsOf(log)
    ensures Delivers(frames', log, log + u, head)
  {
    var cursor := log[|log| - 1];
    if head.version == cursor.version {
      assert log + u == log;
      GrowsFaithful(frames, frames', log);
    } else {
      ShownIsComplete(feed.stores(look), feed.listings(look, product), product, frames', cursor, head, u);
      var a, b := Snapshot(frames, log), Snapshot(frames', log + u);
      assert u[..|u|] == u && Poll(a, b, head, u, |u|);
      forall v | v in frames' && log[0].mtime <= frames'[v] <= head.mtime ensures v in VersionsOf(log + u) {
        WholePollCatchesUp(a, b, head, u, v);
      }
    }
  }

  lemma PollDelivers(t: Tape, t': Tape, product: Product, feed: Feed, at: int, lo: nat, hi: nat, head: Head, look: nat,
                     u: seq<Head>, es: seq<Event>)
    requires Kept(t, product) && PollStep(t, t', product, feed, at, lo, hi, head, None, look, u, es) && |es| == |u|
    ensures LogOf(t.days, product) != []
    ensures Delivers(t'.frames, LogOf(t.days, product), LogOf(t'.days, product), head)
  {
    var log := LogOf(t.days, product);
    RunningCursor(t, product);
    assert Delivers(t'.frames, log, log + u, head) by {
      WholePollDelivers(t.frames, t'.frames, log, product, feed, look, head, u);
    }
    assert LogOf(t'.days, product) == log + u by {
      GainedHeads(Today(t), Today(t'), product, es, u);
      assert u[..|es|] == u;
      PollExtends(t, t', product, u);
    }
  }

  /** The tape with today's batch as a collection left it. */
  function Recorded(t: Tape, frames: Frames, b: Batch): Tape
    requires t.days != []
  {
    Tape(frames, t.days[..|t.days| - 1] + [b])
  }

  /** However the product came from the batch of the tape to this one, the poll was calm. */
  ghost predicate CalmPolls(t: Tape, frames: Frames, product: Product, feed: Feed, at: int, lo: nat, hi: nat,
                            head: Head, b': Batch)
    requires t.days != [] && product in Today(t).heads
  {
    forall look, u, es | MovedBy(feed, at, lo, hi, product, head, None, Today(t), b', look, u, es) ::
      Calm(t, frames, product, feed, head, look, u, es)
  }

  lemma WholeAdvance(product: Product, feed: Feed, at: int, lo: nat, hi: nat, heads: map<Product, Head>, b: Batch,
                     b': Batch)
    returns (look: nat, u: seq<Head>, es: seq<Event>)
    requires product in b.heads && product in heads && Progress(feed, at, lo, hi, heads, None, b, b', heads.Keys)
    ensures MovedBy(feed, at, lo, hi, product, heads[product], None, b, b', look, u, es) && |es| == |u|
  {
    assert Stands(feed, at, lo, hi, heads, None, b, b', heads.Keys, product);
    look, u, es :| MovedBy(feed, at, lo, hi, product, heads[product], None, b, b', look, u, es)
    && CutOff(u, |es|, None);
  }

  /**
   What a successful `Collect` ensures of today's batch comes to this for a full-frame product whose poll was
   calm: up to the head read, every frame published since the first is in its days, once and in order; the only
   ones that wait are those that bear the time of a head committed before.
   */
  lemma CollectDelivers(t: Tape, product: Product, feed: Feed, at: int, lo: nat, hi: nat, heads: map<Product, Head>,
                        b': Batch, frames: Frames)
    requires Kept(t, product) && product in Today(t).heads && HeadsExact(Today(t))
    requires Progress(feed, at, lo, hi, heads, None, Today(t), b', heads.Keys) && product in heads
    requires CalmPolls(t, frames, product, feed, at, lo, hi, heads[product], b')
    ensures var t' := Recorded(t, frames, b');
            && Step(t, t', product) && Kept(t', product)
            && Delivers(frames, LogOf(t.days, product), LogOf(t'.days, product), heads[product])
  {
    var t', head := Recorded(t, frames, b'), heads[product];
    var look, u, es := WholeAdvance(product, feed, at, lo, hi, heads, Today(t), b');
    assert SameDays(t, t') && Today(t') == b';
    assert PollStep(t, t', product, feed, at, lo, hi, head, None, look, u, es);
    PollKeeps(t, t', product, feed, at, lo, hi, head, None, look, u, es);
    PollDelivers(t, t', product, feed, at, lo, hi, head, look, u, es);
  }

  // ----- What an export of the day yields -----

  /** How many of the events count by this time. */
  ghost function CountBy(es: seq<Event>, at: int): nat {
    if es == [] then 0 else if es[|es| - 1].effective <= at then |es| else CountBy(es[..|es| - 1], at)
  }

  lemma {:induction false} CountIs(es: seq<Event>, at: int)
    requires Export.TimesRise(es) && es != [] && es[0].effective <= at
    ensures var k := CountBy(es, at);
            0 < k <= |es| && es[k - 1].effective <= at && (k < |es| ==> es[k].effective > at)
    decreases |es|
  {
    if es[|es| - 1].effective > at { CountIs(es[..|es| - 1], at); }
  }

  lemma DayRises(frames: Frames, log: seq<Head>, es: seq<Event>)
    requires Tidy(frames, log) && EndsWith(log, HeadsIn(es))
    requires forall i | 0 < i < |es| :: es[i].effective == es[i].head.mtime
    requires |es| > 1 ==> es[0].effective <= es[1].head.mtime
    ensures Export.TimesRise(es)
  {
    var first := |log| - |es|;
    forall i | 0 <= i < |es| ensures log[first + i] == es[i].head { assert log[first + i] == HeadsIn(es)[i]; }
    forall i, j | 0 <= i < j < |es| ensures es[i].effective <= es[j].effective {
      assert log[first + i].mtime <= log[first + j].mtime;
      assert j > 1 ==> log[first + 1].mtime <= log[first + j].mtime;
    }
  }

  /** A frame archived in the log is no newer than today's state that follows it or is it. */
  lemma FrameIsBefore(frames: Frames, log: seq<Head>, es: seq<Event>, v: Version, at: int, k: nat)
    requires Tidy(frames, log) && EndsWith(log, HeadsIn(es)) && Export.TimesRise(es) && 0 < k <= |es|
    requires forall i | 0 < i < |es| :: es[i].effective == es[i].head.mtime
    requires v in VersionsOf(log) && v in frames && frames[v] <= at && (k < |es| ==> es[k].effective > at)
    ensures frames[v] <= es[k - 1].head.mtime
  {
    var first := |log| - |es|;
    assert log[first + k - 1] == HeadsIn(es)[k - 1] == es[k - 1].head;
    forall j | first + k <= j < |log| ensures log[j].mtime > at {
      assert log[j] == HeadsIn(es)[j - first] == es[j - first].head;
      assert j - first == k || es[k].effective <= es[j - first].effective;
    }
    var x :| x in log && x.version == v;
    var j :| 0 <= j < |log| && log[j] == x;
    assert j < first + k;
  }

  /** The state is the newest of these frames at this time, or the one the day opened with. */
  ghost predicate NewestBy(frames: Frames, log: seq<Head>, opening: Event, e: Event, at: int) {
    && (e == opening || e.head.mtime <= at)
    && forall v | v in VersionsOf(log) && v in frames && frames[v] <= at :: frames[v] <= e.head.mtime
  }

  /** The export of these events at a time joins and ends so. */
  ghost predicate ExportsNewest(frames: Frames, log: seq<Head>, es: seq<Event>, at: int)
    requires es != []
  {
    var x := Export.Timeline(es, at);
    Export.Joined(x) && NewestBy(frames, log, es[0], x[|x| - 1], at)
  }

  lemma DayExports(frames: Frames, log: seq<Head>, events: seq<Event>, product: Product, at: int)
    requires History(events) && Tidy(frames, log) && EndsWith(log, HeadsIn(OfProduct(events, product)))
    requires var es := OfProduct(events, product);
             && es[0].effective <= at && (forall i | 0 < i < |es| :: es[i].effective == es[i].head.mtime)
             && (|es| > 1 ==> es[0].effective <= es[1].head.mtime)
    ensures ExportsNewest(frames, log, OfProduct(events, product), at)
  {
    var es := OfProduct(events, product);
    DayRises(frames, log, es);
    CountIs(es, at);
    var k := CountBy(es, at);
    Export.ExportReachesState(events, product, at, k);
    forall v | v in VersionsOf(log) && v in frames && frames[v] <= at ensures frames[v] <= es[k - 1].head.mtime {
      FrameIsBefore(frames, log, es, v, at, k);
    }
  }

  /**
   An export of today's events at a time ends with the newest frame archived that was published by then, or with
   the state the day opened with: no frame in the record that was published by then is newer.
   */
  lemma ExportReachesFrame(h: seq<Tape>, product: Product, at: int)
    requires IsTape(h, product) && History(Today(h[|h| - 1]).events)
    requires var es := OfProduct(Today(h[|h| - 1]).events, product);
             && es != [] && es[0].effective <= at && (forall i | 0 < i < |es| :: es[i].head.mtime != 0)
             && (|es| > 1 ==> es[0].effective <= es[1].head.mtime)
    ensures var t := h[|h| - 1];
            ExportsNewest(t.frames, LogOf(t.days, product), OfProduct(Today(t).events, product), at)
  {
    var t := h[|h| - 1];
    ArchivedOnce(h, product);
    DayExports(t.frames, LogOf(t.days, product), Today(t).events, product, at);
  }

  // ----- What a collection does to a product's days -----

  /** The product advanced towards its head: by all that its source answered up to the cut-off, or by part of it. */
  ghost predicate Advanced(product: Product, feed: Feed, at: int, lo: nat, hi: nat, heads: map<Product, Head>,
                           cutoff: Option<int>, full: bool, b: Batch, b': Batch) {
    if product in heads then
      || Moved(feed, at, lo, hi, product, heads[product], cutoff, full, b, b')
      || (!full && Same(product, b, b'))
    else Same(product, b, b')
  }

  lemma ProgressAdvances(product: Product, feed: Feed, at: int, lo: nat, hi: nat, heads: map<Product, Head>,
                         cutoff: Option<int>, done: set<Product>, full: bool, b: Batch, b': Batch)
    requires product in b.heads && (product in heads ==> product in done)
    requires if full then Progress(feed, at, lo, hi, heads, cutoff, b, b', done)
             else PartProgress(feed, at, lo, hi, heads, cutoff, b, b')
    ensures Advanced(product, feed, at, lo, hi, heads, cutoff, full, b, b')
  {
    if full {
      assert Stands(feed, at, lo, hi, heads, cutoff, b, b', done, product);
    } else {
      assert StandsPartly(feed, at, lo, hi, heads, cutoff, b, b', product);
    }
  }

  /** The old day, drained: all that its source answered from before midnight, towards the head read first. */
  ghost predicate Drained(product: Product, feed: Feed, at: int, lo: nat, hi: nat, start: int, b: Batch, b': Batch) {
    exists frozen ::
      && LiveSource.Heads(feed.stores(lo)) == Success(frozen)
      && Advanced(product, feed, at, lo, hi, frozen, Some(start), true, b, b')
  }

  /** The days of a source before a collection end with its active batch, those after it with today's. */
  ghost predicate Collected(product: Product, feed: Feed, at: int, lo: nat, hi: nat, w: World, w': World, id: BatchId,
                            base: Batch, heads: map<Product, Head>, full: bool) {
    var source := feed.identity;
    && source in w.active && w.active[source] in w.batches && id in w'.batches
    && Advanced(product, feed, at, lo, hi, heads, None, full, base, w'.batches[id])
    && var was := w.active[source];
    if !OverDay(w, source, at / DAY)
    then was == id && base.events == w.batches[id].events && base.heads == w.batches[id].heads
    else
      && was in w'.batches && product in w'.batches[was].heads
      && Drained(product, feed, at, lo, hi, at / DAY * DAY, w.batches[was], w'.batches[was])
      && Begun(feed, at / DAY * DAY, lo, hi, product, w'.batches[was].heads[product], NEW_BATCH, base)
  }

  /** What `Collect` ensures comes, for each product the old day follows, to at most two polls and a rotation. */
  lemma CollectSteps(product: Product, feed: Feed, at: int, lo: nat, hi: nat, w: World, w': World, id: BatchId,
                     base: Batch, heads: map<Product, Head>, full: bool)
    requires feed.identity in w.active && w.active[feed.identity] in w.batches && id in w'.batches
    requires product in w.batches[w.active[feed.identity]].heads
    requires NewDay(feed, lo, hi, w, w', feed.identity, at, id, base)
    requires DayClosed(feed, lo, hi, w, w', feed.identity, at, true)
    requires if full then Progress(feed, at, lo, hi, heads, None, base, w'.batches[id], heads.Keys)
             else PartProgress(feed, at, lo, hi, heads, None, base, w'.batches[id])
    ensures Collected(product, feed, at, lo, hi, w, w', id, base, heads, full)
  {
    if OverDay(w, feed.identity, at / DAY) {
      ClosedIsDrained(product, feed, at, lo, hi, w, w');
      SeededBegins(product, feed, at / DAY * DAY, lo, hi, w'.batches[w.active[feed.identity]], base);
    }
    ProgressAdvances(product, feed, at, lo, hi, heads, None, heads.Keys, full, base, w'.batches[id]);
  }

  lemma ClosedIsDrained(product: Product, feed: Feed, at: int, lo: nat, hi: nat, w: World, w': World)
    requires OverDay(w, feed.identity, at / DAY) && DayClosed(feed, lo, hi, w, w', feed.identity, at, true)
    requires product in w.batches[w.active[feed.identity]].heads
    ensures var was := w.active[feed.identity];
            && was in w'.batches && product in w'.batches[was].heads
            && Drained(product, feed, at, lo, hi, at / DAY * DAY, w.batches[was], w'.batches[was])
  {
    var was := w.active[feed.identity];
    var b, b' := w.batches[was], w'.batches[was];
    var frozen :| OldDay(feed, at, lo, hi, frozen, at / DAY * DAY, true, b, b');
    assert Stands(feed, at, lo, hi, frozen, Some(at / DAY * DAY), b, b', b.heads.Keys, product);
    ProgressAdvances(product, feed, at, lo, hi, frozen, Some(at / DAY * DAY), b.heads.Keys, true, b, b');
  }

  lemma SeededBegins(product: Product, feed: Feed, at: int, lo: nat, hi: nat, previous: Batch, base: Batch)
    requires SeededFrom(feed, at, lo, hi, Some(previous), base) && product in previous.heads
    ensures Begun(feed, at, lo, hi, product, previous.heads[product], NEW_BATCH, base) && product in base.heads
  {
    var seeds := previous.heads;
    assert Progress(feed, at, lo, hi, seeds, None, NEW_BATCH, base, seeds.Keys);
    assert Stands(feed, at, lo, hi, seeds, None, NEW_BATCH, base, seeds.Keys, product);
  }
}
