/**
 Full-frame products of tools/live_feed_archive.py: frames have no parent links, so every poll
 collects all retained frames between the committed cursor and the current head. Publication
 times may coincide; the `same_time_versions` set in the cursor tells such frames apart.
 */
module FullFrames {
  import opened Wrappers
  import opened LiveSource

  /** The versions already delivered at the cursor's own publication time. */
  function Seen(cursor: Head): set<Version> {
    cursor.sameTime + {cursor.version}
  }

  /** The frame belongs to the poll from `cursor` to `head`. */
  predicate Fresh(cursor: Head, head: Head, version: Version, mtime: nat) {
    cursor.mtime <= mtime <= head.mtime && !(mtime == cursor.mtime && version in Seen(cursor))
  }

  /** Versions in dictionary order, as strings are compared. */
  predicate Alphabetic(a: Version, b: Version) {
    a == [] || (b != [] && (a[0] < b[0] || (a[0] == b[0] && Alphabetic(a[1..], b[1..]))))
  }

  lemma {:induction false} AlphabeticTotal(a: Version, b: Version)
    ensures Alphabetic(a, b) || Alphabetic(b, a)
    ensures Alphabetic(a, b) && Alphabetic(b, a) ==> a == b
  {
    if a != [] && b != [] {
      AlphabeticTotal(a[1..], b[1..]);
      assert a == [a[0]] + a[1..] && b == [b[0]] + b[1..];
    }
  }

  lemma {:induction false} AlphabeticTransitive(a: Version, b: Version, c: Version)
    requires Alphabetic(a, b) && Alphabetic(b, c)
    ensures Alphabetic(a, c)
  {
    if a != [] && a[0] == b[0] && b[0] == c[0] { AlphabeticTransitive(a[1..], b[1..], c[1..]); }
  }

  ghost predicate SmallerAt(a: Version, b: Version, k: nat) {
    k < |a| && k < |b| && a[k] < b[k] && forall i | 0 <= i < k :: a[i] == b[i]
  }

  /** In dictionary order: a prefix, or smaller at the first difference. */
  ghost predicate Precedes(a: Version, b: Version) { a <= b || exists k: nat :: SmallerAt(a, b, k) }

  lemma {:induction false} AlphabeticIff(a: Version, b: Version)
    ensures Alphabetic(a, b) <==> Precedes(a, b)
  {
    if a != [] && b != [] && a[0] == b[0] {
      AlphabeticIff(a[1..], b[1..]);
      assert a == [a[0]] + a[1..] && b == [b[0]] + b[1..];
      if k: nat :| SmallerAt(a[1..], b[1..], k) { assert SmallerAt(a, b, k + 1); }
      if k: nat :| SmallerAt(a, b, k) { assert SmallerAt(a[1..], b[1..], k - 1); }
    } else if a != [] && b != [] && a[0] < b[0] {
      assert SmallerAt(a, b, 0);
    }
  }

  /** Order of delivery: by time, the head last among its equals, the others by version. */
  predicate InOrder(a: Head, b: Head, last: Version) {
    || a.mtime < b.mtime
    || (a.mtime == b.mtime && if a.version == last || b.version == last then b.version == last
          else Alphabetic(a.version, b.version))
  }

  lemma InOrderTotal(a: Head, b: Head, last: Version)
    requires a.version != b.version
    ensures InOrder(a, b, last) || InOrder(b, a, last)
  {
    AlphabeticTotal(a.version, b.version);
  }

  lemma InOrderTransitive(a: Head, b: Head, c: Head, last: Version)
    requires InOrder(a, b, last) && InOrder(b, c, last)
    ensures InOrder(a, c, last)
  {
    if Alphabetic(a.version, b.version) && Alphabetic(b.version, c.version) {
      AlphabeticTransitive(a.version, b.version, c.version);
    }
  }

  ghost predicate Sorted(u: seq<Head>, last: Version) {
    forall i, j | 0 <= i < j < |u| :: InOrder(u[i], u[j], last)
  }

  ghost predicate Distinct(u: seq<Head>) {
    forall i, j | 0 <= i < j < |u| :: u[i].version != u[j].version
  }

  /** The frames in the product's directory, each version with its publication time. */
  type Frames = map<Version, nat>

  /** What a poll must deliver: exactly the fresh frames and the head, each once, in time order. */
  ghost predicate Complete(frames: Frames, cursor: Head, head: Head, u: seq<Head>) {
    && cursor.mtime <= head.mtime && head.version in frames && frames[head.version] == head.mtime
    && Distinct(u) && Sorted(u, head.version)
    && u != [] && u[|u| - 1].version == head.version
    && (forall i | 0 <= i < |u| :: u[i].version in frames && u[i].mtime == frames[u[i].version])
    && (forall i | 0 <= i < |u| :: u[i].version == head.version || Fresh(cursor, head, u[i].version, u[i].mtime))
    && (forall v | v in frames && Fresh(cursor, head, v, frames[v]) :: v in VersionsOf(u))
  }

  /**
   What is delivered, in terms of the cursor: everything published after it up to the head, and of its own
   time what it does not name; by time, then by version, the head last.
   */
  lemma DeliveredIff(frames: Frames, cursor: Head, head: Head, u: seq<Head>)
    requires Complete(frames, cursor, head, u)
    ensures forall v :: v in VersionsOf(u) <==>
              || v == head.version
              || (v in frames && cursor.mtime < frames[v] <= head.mtime)
              || (v in frames && cursor.mtime == frames[v] && v != cursor.version && v !in cursor.sameTime)
    ensures forall i, j | 0 <= i < j < |u| ::
              && u[i].mtime <= u[j].mtime && u[i].version != head.version
              && (u[i].mtime == u[j].mtime && u[j].version != head.version ==> Precedes(u[i].version, u[j].version))
  {
    forall v | v in VersionsOf(u)
      ensures v == head.version || (v in frames && Fresh(cursor, head, v, frames[v]))
    {
      var i :| 0 <= i < |u| && u[i].version == v;
    }
    assert u[|u| - 1] in u;
    forall i, j | 0 <= i < j < |u|
      ensures u[i].mtime <= u[j].mtime && u[i].version != head.version
      ensures u[i].mtime == u[j].mtime && u[j].version != head.version ==> Precedes(u[i].version, u[j].version)
    {
      assert InOrder(u[i], u[j], head.version);
      AlphabeticIff(u[i].version, u[j].version);
    }
  }

  function VersionsOf(u: seq<Head>): set<Version> {
    set h | h in u :: h.version
  }

  /** The head committed just before update `i` of a poll. */
  function Previous(cursor: Head, u: seq<Head>, i: nat): Head
    requires i <= |u|
  {
    if i == 0 then cursor else u[i - 1]
  }

  /** The versions delivered so far at the time of update `i`, itself included. */
  ghost function SameTime(cursor: Head, u: seq<Head>, i: nat): set<Version>
    requires i < |u|
  {
    var before := Previous(cursor, u, i);
    {u[i].version} + (if u[i].mtime == before.mtime then Seen(before) else {})
  }

  ghost predicate Annotated(cursor: Head, u: seq<Head>) {
    forall i {:trigger SameTime(cursor, u, i)} | 0 <= i < |u| :: u[i].sameTime == SameTime(cursor, u, i)
  }

  /** The directory listing shows each frame of `frames` once. */
  ghost predicate Lists(store: Store, listing: seq<Path>, frames: Frames) {
    && (forall k | 0 <= k < |listing| :: listing[k] in store.files ==>
          var f := store.files[listing[k]]; f.manifest.version in frames && frames[f.manifest.version] == f.mtime)
    && (forall v | v in frames :: exists k | 0 <= k < |listing| ::
          listing[k] in store.files && store.files[listing[k]].manifest.version == v)
  }

  // ----- The loops of `_updates` -----

  /** Every candidate lies between the cursor and the head, under its own version. */
  ghost predicate Between(candidates: map<Version, Head>, cursor: Head, head: Head) {
    forall v | v in candidates :: candidates[v].version == v && cursor.mtime <= candidates[v].mtime <= head.mtime
  }

  ghost predicate Gathered(frames: Frames, candidates: map<Version, Head>, cursor: Head, head: Head) {
    && (forall v | v in candidates :: v in frames && candidates[v].mtime == frames[v])
    && (forall v :: v in candidates <==> v in frames && Fresh(cursor, head, v, frames[v]))
  }

  /** One entry of the listing is this fresh frame. */
  ghost predicate Finds(store: Store, listing: seq<Path>, k: nat, cursor: Head, head: Head, v: Version, mtime: nat) {
    && k < |listing| && listing[k] in store.files
    && var f := store.files[listing[k]];
    f.manifest.version == v && f.mtime == mtime && Fresh(cursor, head, v, mtime)
  }

  /** The head is read from the manifest that the listing shows for its version. */
  ghost predicate ReadFrom(store: Store, listing: seq<Path>, h: Head) {
    && h.path in listing && h.path in store.files && !h.gap
    && store.files[h.path].manifest.version == h.version && store.files[h.path].mtime == h.mtime
  }

  /** The candidates are exactly the fresh frames among the first entries of the listing. */
  ghost predicate Found(store: Store, listing: seq<Path>, n: nat, cursor: Head, head: Head, candidates: map<Version,
                        Head>) {
    && Between(candidates, cursor, head)
    && (forall v | v in candidates :: exists k: nat ::
          k < n && Finds(store, listing, k, cursor, head, v, candidates[v].mtime))
    && (forall v | v in candidates :: ReadFrom(store, listing, candidates[v]))
    && (forall k: nat, v, mtime | k < n && Finds(store, listing, k, cursor, head, v, mtime) :: v in candidates)
  }

  method Candidates(store: Store, listing: seq<Path>, cursor: Head, head: Head)
    returns (r: Result<map<Version, Head>, Error>)
    ensures r.Failure? <==> exists k | 0 <= k < |listing| :: listing[k] !in store.files
    ensures r.Failure? ==> r.error.Missing?
    ensures r.Success? ==> Found(store, listing, |listing|, cursor, head, r.value)
  {
    var candidates: map<Version, Head> := map[];
    for k := 0 to |listing|
      invariant forall i | 0 <= i < k :: listing[i] in store.files
      invariant Found(store, listing, k, cursor, head, candidates)
    {
      var path := listing[k];
      if path !in store.files { return Failure(Missing); }
      var file := store.files[path];
      if cursor.mtime <= file.mtime <= head.mtime {
        var version := file.manifest.version;
        if !(file.mtime == cursor.mtime && version in Seen(cursor)) {
          assert Finds(store, listing, k, cursor, head, version, file.mtime);
          candidates := candidates[version := Head(version, path, file.mtime, {}, false)];
        }
      }
    }
    r := Success(candidates);
  }

  /** Where the listing shows the published frames, the candidates are the fresh ones of them. */
  lemma FoundIsGathered(store: Store, listing: seq<Path>, cursor: Head, head: Head, candidates: map<Version, Head>,
                        frames: Frames)
    requires Found(store, listing, |listing|, cursor, head, candidates) && Lists(store, listing, frames)
    ensures Gathered(frames, candidates, cursor, head)
  {
    forall v | v in candidates
      ensures v in frames && candidates[v].mtime == frames[v] && Fresh(cursor, head, v, frames[v])
    {
      var k: nat :| k < |listing| && Finds(store, listing, k, cursor, head, v, candidates[v].mtime);
    }
    forall v | v in frames && Fresh(cursor, head, v, frames[v]) ensures v in candidates {
      var k: nat :| k < |listing| && listing[k] in store.files && store.files[listing[k]].manifest.version == v;
      assert Finds(store, listing, k, cursor, head, v, frames[v]);
    }
  }

  method Insert(u: seq<Head>, h: Head, last: Version) returns (r: seq<Head>)
    requires Sorted(u, last) && Distinct(u) && forall i | 0 <= i < |u| :: u[i].version != h.version
    ensures Sorted(r, last) && Distinct(r)
    ensures forall x :: x in r <==> x in u || x == h
  {
    var k := 0;
    while k < |u| && InOrder(u[k], h, last)
      invariant k <= |u|
      invariant forall i | 0 <= i < k :: InOrder(u[i], h, last)
    {
      k := k + 1;
    }
    r := u[..k] + [h] + u[k..];
    Inserted(u, k, h, last);
  }

  lemma Inserted(u: seq<Head>, k: nat, h: Head, last: Version)
    requires Sorted(u, last) && Distinct(u) && k <= |u|
    requires forall i | 0 <= i < |u| :: u[i].version != h.version
    requires forall i | 0 <= i < k :: InOrder(u[i], h, last)
    requires k < |u| ==> !InOrder(u[k], h, last)
    ensures var r := u[..k] + [h] + u[k..];
            Sorted(r, last) && Distinct(r) && forall x :: x in r <==> x in u || x == h
  {
    var r := u[..k] + [h] + u[k..];
    assert u == u[..k] + u[k..];
    forall i | k <= i < |u| ensures InOrder(h, u[i], last) {
      InOrderTotal(u[k], h, last);
      if k < i { InOrderTransitive(h, u[k], u[i], last); }
    }
    forall i, j | 0 <= i < j < |r| ensures InOrder(r[i], r[j], last) && r[i].version != r[j].version {
      if i != k && j != k {
        var i', j' := if i < k then i else i - 1, if j < k then j else j - 1;
        assert r[i] == u[i'] && r[j] == u[j'] && InOrder(u[i'], u[j'], last);
      } else if i == k {
        assert r[i] == h && r[j] == u[j - 1];
      } else {
        assert r[j] == h && r[i] == u[i];
      }
    }
  }

  /** `sorted(candidates.values(), ...)`. */
  method Order(candidates: map<Version, Head>, last: Version) returns (u: seq<Head>)
    requires forall v | v in candidates :: candidates[v].version == v
    ensures Sorted(u, last) && Distinct(u)
    ensures forall x :: x in u <==> exists v | v in candidates :: candidates[v] == x
  {
    u := [];
    var rest := candidates.Keys;
    while rest != {}
      invariant rest <= candidates.Keys
      invariant Sorted(u, last) && Distinct(u)
      invariant forall x :: x in u <==> exists v | v in candidates && v !in rest :: candidates[v] == x
      decreases |rest|
    {
      var v :| v in rest;
      assert forall i | 0 <= i < |u| :: u[i] in u;
      u := Insert(u, candidates[v], last);
      rest := rest - {v};
    }
  }

  /** The final loop: record in each update the versions delivered at its time so far. */
  method Annotate(cursor: Head, plain: seq<Head>) returns (u: seq<Head>)
    ensures |u| == |plain| && forall i | 0 <= i < |u| :: u[i] == plain[i].(sameTime := u[i].sameTime)
    ensures Annotated(cursor, u)
  {
    var seen, timestamp := Seen(cursor), cursor.mtime;
    u := [];
    for k := 0 to |plain|
      invariant |u| == k && forall i | 0 <= i < k :: u[i] == plain[i].(sameTime := u[i].sameTime)
      invariant timestamp == Previous(cursor, u, k).mtime && seen == Seen(Previous(cursor, u, k))
      invariant Annotated(cursor, u)
    {
      if plain[k].mtime != timestamp {
        seen := {};
        timestamp := plain[k].mtime;
      }
      seen := seen + {plain[k].version};
      ExtendAnnotated(cursor, u, plain[k].(sameTime := seen));
      u := u + [plain[k].(sameTime := seen)];
    }
  }

  lemma ExtendAnnotated(cursor: Head, u: seq<Head>, next: Head)
    requires Annotated(cursor, u)
    requires var before := Previous(cursor, u, |u|);
             next.sameTime == {next.version} + (if next.mtime == before.mtime then Seen(before) else {})
    ensures Annotated(cursor, u + [next])
  {
    var u' := u + [next];
    forall i | 0 <= i < |u| ensures u'[i].sameTime == SameTime(cursor, u', i) {
      assert u[i].sameTime == SameTime(cursor, u, i);
    }
  }

  /** The head's own manifest is among the frames. */
  ghost predicate HeadListed(frames: Frames, head: Head) {
    head.version in frames && frames[head.version] == head.mtime
  }

  /** The update is the head itself, or one that the listing shows. */
  ghost predicate Shown(store: Store, listing: seq<Path>, head: Head, h: Head) {
    if h.version == head.version then h == head.(sameTime := h.sameTime) else ReadFrom(store, listing, h)
  }

  /** `_updates` for full-frame products: all and only the fresh frames, annotated, ending at the head. */
  method FrameUpdates(store: Store, listing: seq<Path>, cursor: Head, head: Head) returns (r: Result<seq<Head>, Error>)
    ensures head.mtime < cursor.mtime ==> r == Failure(Invalid)
    ensures head.mtime >= cursor.mtime ==>
              (r.Failure? <==> exists k | 0 <= k < |listing| :: listing[k] !in store.files)
              && (r.Failure? ==> r.error.Missing?)
    ensures r.Success? ==> r.value != [] && r.value[|r.value| - 1].version == head.version && Annotated(cursor, r.value)
    ensures r.Success? ==> forall i | 0 <= i < |r.value| :: Shown(store, listing, head, r.value[i])
    ensures r.Success? ==> forall frames | Lists(store, listing, frames) && HeadListed(frames, head) ::
              Complete(frames, cursor, head, r.value)
  {
    if head.mtime < cursor.mtime { return Failure(Invalid); }
    var found :- Candidates(store, listing, cursor, head);
    var candidates := found[head.version := head];
    var plain := Order(candidates, head.version);
    HeadIsLast(candidates, head, plain);
    var u := Annotate(cursor, plain);
    forall i | 0 <= i < |u| ensures Shown(store, listing, head, u[i]) { assert plain[i] in plain; }
    forall frames | Lists(store, listing, frames) && HeadListed(frames, head)
      ensures Complete(frames, cursor, head, u)
    {
      FoundIsGathered(store, listing, cursor, head, found, frames);
      OrderedIsComplete(frames, cursor, head, candidates, plain);
      NotesKeepComplete(frames, cursor, head, plain, u);
    }
    r := Success(u);
  }

  lemma HeadIsLast(candidates: map<Version, Head>, head: Head, u: seq<Head>)
    requires head.version in candidates && candidates[head.version] == head
    requires forall v | v in candidates :: candidates[v].mtime <= head.mtime
    requires Sorted(u, head.version) && forall x :: x in u <==> exists v | v in candidates :: candidates[v] == x
    ensures u != [] && u[|u| - 1].version == head.version
  {
    assert candidates[head.version] in u;
    forall i | 0 <= i < |u| ensures u[i].mtime <= head.mtime { assert u[i] in u; }
    LastIsHead(u, head);
  }

  lemma OrderedIsComplete(frames: Frames, cursor: Head, head: Head, candidates: map<Version, Head>, u: seq<Head>)
    requires cursor.mtime <= head.mtime && head.version in frames && frames[head.version] == head.mtime
    requires head.version in candidates && candidates[head.version] == head
    requires forall v | v in candidates :: candidates[v].version == v && v in frames && candidates[v].mtime == frames[v]
    requires forall v :: v in candidates <==> v == head.version || (v in frames && Fresh(cursor, head, v, frames[v]))
    requires Sorted(u, head.version) && Distinct(u)
    requires forall x :: x in u <==> exists v | v in candidates :: candidates[v] == x
    ensures Complete(frames, cursor, head, u)
  {
    assert candidates[head.version] in u;
    forall i | 0 <= i < |u| ensures u[i].version in candidates && candidates[u[i].version] == u[i] { assert u[i] in u; }
    LastIsHead(u, head);
    forall v | v in frames && Fresh(cursor, head, v, frames[v]) ensures v in VersionsOf(u) {
      assert candidates[v] in u;
    }
  }

  lemma NotesKeepComplete(frames: Frames, cursor: Head, head: Head, plain: seq<Head>, u: seq<Head>)
    requires Complete(frames, cursor, head, plain)
    requires |u| == |plain| && forall i | 0 <= i < |u| :: u[i] == plain[i].(sameTime := u[i].sameTime)
    ensures Complete(frames, cursor, head, u)
  {
    forall v | v in VersionsOf(plain) ensures v in VersionsOf(u) {
      var i :| 0 <= i < |plain| && plain[i].version == v;
      assert u[i] in u;
    }
    forall i, j | 0 <= i < j < |u| ensures InOrder(u[i], u[j], head.version) && u[i].version != u[j].version {
      assert InOrder(plain[i], plain[j], head.version);
    }
  }

  lemma LastIsHead(u: seq<Head>, head: Head)
    requires head in u && Sorted(u, head.version) && forall i | 0 <= i < |u| :: u[i].mtime <= head.mtime
    ensures u[|u| - 1].version == head.version
  {
    var k :| 0 <= k < |u| && u[k] == head;
    if k < |u| - 1 { assert InOrder(u[k], u[|u| - 1], head.version); }
  }

  /** A full-frame answer: annotated, and complete wherever the listing shows the published frames. */
  ghost predicate AnswersFrames(store: Store, listing: seq<Path>, previous: Head, head: Head, u: seq<Head>) {
    && Annotated(previous, u) && (forall i | 0 <= i < |u| :: Shown(store, listing, head, u[i]))
    && forall frames | Lists(store, listing, frames) && HeadListed(frames, head) :: Complete(frames, previous, head, u)
  }

  /** Something that lies between the committed head and the current one is no longer there. */
  ghost predicate Expired(store: Store, listing: seq<Path>, product: Product, previous: Head, head: Head)
    requires previous.version != head.version
  {
    var m := ReadManifest(store, head);
    if m.Failure? then m.error.Missing?
    else if m.value.delta.Some? then
      exists chain :: Lost(store, product, previous.version, chain) && chain[|chain| - 1] == head
    else previous.mtime <= head.mtime && exists k | 0 <= k < |listing| :: listing[k] !in store.files
  }

  /**
   What the source answers when asked what follows a committed head, oldest first. A delta product's
   answer is the linked chain and nothing else, a full-frame product's all fresh frames of the
   listing; if something has expired, and only then, it is one gapped head.
   */
  ghost predicate Answers(store: Store, listing: seq<Path>, product: Product, previous: Head, head: Head,
                          u: seq<Head>) {
    if previous.version == head.version then u == []
    else if Expired(store, listing, product, previous, head) then u == [head.(gap := true)]
    else
      && u != [] && u[|u| - 1].version == head.version
      && var m := ReadManifest(store, head);
      && m.Success?
      && (m.value.delta.Some? ==> Linked(store, product, previous.version, u) && u[|u| - 1] == head)
      && (m.value.delta.None? ==> AnswersFrames(store, listing, previous, head, u))
  }

  /** The head's manifest is another version's, its frames go back in time, or its chain leads nowhere. */
  ghost predicate Garbled(store: Store, product: Product, previous: Head, head: Head) {
    && head.path in store.files
    && var m := store.files[head.path].manifest;
    || m.version != head.version
    || (m.delta.None? && head.mtime < previous.mtime)
    || (m.delta.Some? && forall chain | chain != [] && chain[|chain| - 1] == head ::
          !Linked(store, product, previous.version, chain) && !Lost(store, product, previous.version, chain))
  }

  /** `updates`: whatever has expired is answered with a gap instead of an error. */
  method Updates(store: Store, listing: seq<Path>, product: Product, previous: Head, head: Head)
    returns (r: Result<seq<Head>, Error>)
    ensures r.Failure? <==> previous.version != head.version && Garbled(store, product, previous, head)
    ensures r.Failure? ==> r.error.Invalid?
    ensures r.Success? ==> Answers(store, listing, product, previous, head, r.value)
    ensures forall chain | Linked(store, product, previous.version, chain) && chain[|chain| - 1] == head ::
              previous.version != head.version && ReadManifest(store, head).value.delta.Some? ==> r == Success(chain)
  {
    if previous.version == head.version { return Success([]); }
    var current := ReadManifest(store, head);
    var found: Result<seq<Head>, Error>;
    if current.Failure? {
      found := Failure(current.error);
    } else if current.value.delta.Some? {
      var walk := WalkChain(store, product, previous, head);
      BreaksOffIff(store, product, previous.version, head);
      forall chain { WalkExact(store, product, previous.version, head, chain); }
      found := match walk
      case Failure(e) => Failure(e)
      case Success(Chain(heads)) => Success(heads)
      case Success(ProducerReset) => Success([head.(gap := true)]);
    } else {
      found := FrameUpdates(store, listing, previous, head);
    }
    assert found.Success? ==> found.value != [] by {
      if current.Success? && current.value.delta.Some? && found.Success? && found.value == [] {
        WalkExact(store, product, previous.version, head, []);
      }
    }
    r := if found == Failure(Missing) then Success([head.(gap := true)]) else found;
  }

  // ----- Every frame exactly once, over every sequence of polls -----

  /**
   What the cursor claims: from the time of the first delivery on, a frame has been delivered
   exactly when it is older than the cursor, or as old and named in its `same_time_versions`.
   */
  ghost predicate Exact(frames: Frames, base: nat, delivered: set<Version>, time: nat, seen: set<Version>) {
    && seen <= delivered <= frames.Keys && base <= time
    && (forall v | v in frames && base <= frames[v] ::
          v in delivered <==> frames[v] < time || (frames[v] == time && v in seen))
    && (forall v | v in delivered :: base <= frames[v])
  }

  /** No version repeated, in time order, each with its publication time. */
  ghost predicate Tidy(frames: Frames, log: seq<Head>) {
    && Distinct(log)
    && (forall i, j | 0 <= i < j < |log| :: log[i].mtime <= log[j].mtime)
    && (forall i | 0 <= i < |log| :: log[i].version in frames && frames[log[i].version] == log[i].mtime)
  }

  /** A tidy log of committed heads that ends in an exact cursor. */
  ghost predicate Faithful(frames: Frames, log: seq<Head>) {
    && log != [] && Tidy(frames, log)
    && Exact(frames, log[0].mtime, VersionsOf(log), log[|log| - 1].mtime, Seen(log[|log| - 1]))
  }

  /** Frames are only added, and never with an earlier time than a frame already there. */
  ghost predicate Grows(before: Frames, after: Frames) {
    && (forall v | v in before :: v in after && after[v] == before[v])
    && (forall v, w | v in before && w in after && w !in before :: before[v] <= after[w])
  }

  lemma GrowsFaithful(before: Frames, after: Frames, log: seq<Head>)
    requires Faithful(before, log) && Grows(before, after)
    ensures Faithful(after, log)
  {
    assert log[|log| - 1].version in before;
  }

  /** Delivering the next frame in time, when nothing older is outstanding, keeps the cursor exact. */
  lemma DeliverNext(frames: Frames, base: nat, delivered: set<Version>, time: nat, seen: set<Version>, v: Version)
    requires Exact(frames, base, delivered, time, seen)
    requires v in frames && v !in delivered && time <= frames[v]
    requires forall w | w in frames && base <= frames[w] < frames[v] :: w in delivered
    ensures Exact(frames, base, delivered + {v}, frames[v], {v} + (if frames[v] == time then seen else {}))
  {}

  lemma VersionsAppend(log: seq<Head>, h: Head)
    ensures VersionsOf(log + [h]) == VersionsOf(log) + {h.version}
  {
    var log' := log + [h];
    assert forall x :: x in log' <==> x in log || x == h;
  }

  /** Nothing a poll returns was delivered before, unless the head itself was. */
  lemma UpdatesAreNew(frames: Frames, log: seq<Head>, head: Head, u: seq<Head>, i: nat)
    requires Faithful(frames, log) && Complete(frames, log[|log| - 1], head, u) && i < |u|
    ensures log[|log| - 1].mtime <= u[i].mtime
    ensures u[i].version in VersionsOf(log) <==> u[i].version == head.version && head.version in VersionsOf(log)
  {
    if u[i].version != head.version { assert Fresh(log[|log| - 1], head, u[i].version, u[i].mtime); }
  }

  /** When the i-th update is next, every older frame has been delivered. */
  lemma NothingSkipped(frames: Frames, log: seq<Head>, head: Head, u: seq<Head>, i: nat, w: Version)
    requires Faithful(frames, log) && Complete(frames, log[|log| - 1], head, u) && i < |u|
    requires w in frames && log[0].mtime <= frames[w] < u[i].mtime
    ensures w in VersionsOf(log + u[..i])
  {
    var cursor := log[|log| - 1];
    if w in VersionsOf(log) {
      var h :| h in log && h.version == w;
      assert h in log + u[..i];
    } else {
      assert Fresh(cursor, head, w, frames[w]);
      var h :| h in u && h.version == w;
      var j :| 0 <= j < |u| && u[j] == h;
      assert forall m | i < m < |u| :: InOrder(u[i], u[m], head.version);
      assert u[..i][j] == h;
    }
  }

  /**
   Committing any prefix of a poll's updates, as an interrupted poll does, keeps the log exact:
   no frame twice, in time order, and the cursor tells precisely what has been delivered.
   */
  lemma {:induction false} DeliverPrefix(frames: Frames, log: seq<Head>, head: Head, u: seq<Head>, k: nat)
    requires Faithful(frames, log) && head.version !in VersionsOf(log) && k <= |u|
    requires Complete(frames, log[|log| - 1], head, u) && Annotated(log[|log| - 1], u)
    ensures Faithful(frames, log + u[..k])
    decreases k
  {
    if k == 0 {
      assert log + u[..0] == log;
    } else {
      DeliverPrefix(frames, log, head, u, k - 1);
      DeliverOne(frames, log, head, u, k - 1);
    }
  }

  lemma PrefixStep(log: seq<Head>, u: seq<Head>, i: nat)
    requires i < |u|
    ensures log + u[..i + 1] == (log + u[..i]) + [u[i]]
  {}

  lemma DeliverOne(frames: Frames, log: seq<Head>, head: Head, u: seq<Head>, i: nat)
    requires Faithful(frames, log) && head.version !in VersionsOf(log) && i < |u|
    requires Complete(frames, log[|log| - 1], head, u) && Annotated(log[|log| - 1], u)
    requires Faithful(frames, log + u[..i])
    ensures Faithful(frames, log + u[..i + 1])
  {
    PrefixStep(log, u, i);
    DeliverIth(frames, log, head, u, i, log + u[..i]);
  }

  lemma DeliverIth(frames: Frames, log: seq<Head>, head: Head, u: seq<Head>, i: nat, done: seq<Head>)
    requires Faithful(frames, log) && head.version !in VersionsOf(log) && i < |u|
    requires Complete(frames, log[|log| - 1], head, u) && Annotated(log[|log| - 1], u)
    requires done == log + u[..i] && Faithful(frames, done)
    ensures Faithful(frames, done + [u[i]])
  {
    var next := u[i];
    assert next.version in frames && frames[next.version] == next.mtime;
    assert done[0] == log[0];
    assert next.version !in VersionsOf(done) by { NotYetDelivered(frames, log, head, u, i); }
    assert forall w | w in frames && log[0].mtime <= frames[w] < next.mtime :: w in VersionsOf(done) by {
      forall w | w in frames && log[0].mtime <= frames[w] < next.mtime ensures w in VersionsOf(done) {
        NothingSkipped(frames, log, head, u, i, w);
      }
    }
    EndsInPrevious(log, u, i);
    LastTime(frames, log, head, u, i);
    CommitNext(frames, done, next);
  }

  /** Committing the next head in time, when nothing older is outstanding, keeps the log faithful. */
  lemma CommitNext(frames: Frames, log: seq<Head>, next: Head)
    requires Faithful(frames, log) && next.version !in VersionsOf(log)
    requires next.version in frames && frames[next.version] == next.mtime && log[|log| - 1].mtime <= next.mtime
    requires forall w | w in frames && log[0].mtime <= frames[w] < next.mtime :: w in VersionsOf(log)
    requires Seen(next) == {next.version} + (if next.mtime == log[|log| - 1].mtime then Seen(log[|log| - 1]) else {})
    ensures Faithful(frames, log + [next])
  {
    var last := log[|log| - 1];
    assert (log + [next])[0] == log[0];
    DeliverNext(frames, log[0].mtime, VersionsOf(log), last.mtime, Seen(last), next.version);
    VersionsAppend(log, next);
    ExtendTidy(frames, log, next);
  }

  lemma NotYetDelivered(frames: Frames, log: seq<Head>, head: Head, u: seq<Head>, i: nat)
    requires Faithful(frames, log) && Complete(frames, log[|log| - 1], head, u) && i < |u|
    requires head.version !in VersionsOf(log)
    ensures u[i].version !in VersionsOf(log + u[..i])
  {
    UpdatesAreNew(frames, log, head, u, i);
    forall h | h in log + u[..i] ensures h.version != u[i].version {
      if h in log {
        assert h.version in VersionsOf(log);
      } else {
        var j :| 0 <= j < i && u[..i][j] == h;
      }
    }
  }

  /** The time and the same-time set of the last committed head are those the next update was annotated from. */
  lemma LastTime(frames: Frames, log: seq<Head>, head: Head, u: seq<Head>, i: nat)
    requires Faithful(frames, log) && i < |u|
    requires Complete(frames, log[|log| - 1], head, u) && Annotated(log[|log| - 1], u)
    ensures var last := Previous(log[|log| - 1], u, i);
            last.mtime <= u[i].mtime
            && Seen(u[i]) == {u[i].version} + (if u[i].mtime == last.mtime then Seen(last) else {})
  {
    assert u[i].sameTime == SameTime(log[|log| - 1], u, i);
    if i == 0 {
      UpdatesAreNew(frames, log, head, u, 0);
    } else {
      assert InOrder(u[i - 1], u[i], head.version);
    }
  }

  lemma EndsInPrevious(log: seq<Head>, u: seq<Head>, i: nat)
    requires log != [] && i <= |u|
    ensures (log + u[..i])[|log| + i - 1] == Previous(log[|log| - 1], u, i)
  {}

  lemma ExtendTidy(frames: Frames, log: seq<Head>, next: Head)
    requires log != [] && Tidy(frames, log) && next.version !in VersionsOf(log)
    requires next.version in frames && frames[next.version] == next.mtime && log[|log| - 1].mtime <= next.mtime
    ensures Tidy(frames, log + [next])
  {
    forall i | 0 <= i < |log| ensures log[i].version != next.version { assert log[i] in log; }
  }

  /** One snapshot of a run: the frames published so far and the heads committed so far. */
  datatype Snapshot = Snapshot(frames: Frames, log: seq<Head>)

  /** A poll: publication goes on, then some prefix of the updates up to the then-current head is committed. */
  ghost predicate Poll(a: Snapshot, b: Snapshot, head: Head, u: seq<Head>, k: nat) {
    && a.log != [] && Grows(a.frames, b.frames) && k <= |u|
    && Complete(b.frames, a.log[|a.log| - 1], head, u) && Annotated(a.log[|a.log| - 1], u)
    && head.version !in VersionsOf(a.log)
    && b.log == a.log + u[..k]
  }

  ghost predicate Polled(a: Snapshot, b: Snapshot) {
    exists head, u, k :: Poll(a, b, head, u, k)
  }

  /** The run starts when a baseline has been committed. */
  ghost predicate Started(s: Snapshot) {
    && |s.log| == 1 && s.log[0].sameTime == {}
    && s.log[0].version in s.frames && s.frames[s.log[0].version] == s.log[0].mtime
  }

  ghost predicate IsHistory(h: seq<Snapshot>) {
    h != [] && if |h| == 1 then Started(h[0]) else IsHistory(h[..|h| - 1]) && Polled(h[|h| - 2], h[|h| - 1])
  }

  /**
   Over every run of polls, interrupted or not, that starts from a committed baseline: each frame
   published from the baseline's time on and older than the cursor has been delivered exactly
   once, and deliveries are in time order, however many frames share one time.
   */
  lemma {:induction false} EveryFrameOnce(h: seq<Snapshot>)
    requires IsHistory(h)
    ensures Faithful(h[|h| - 1].frames, h[|h| - 1].log)
    decreases |h|
  {
    if |h| == 1 {
      StartIsFaithful(h[0]);
    } else {
      var before := h[..|h| - 1];
      EveryFrameOnce(before);
      PollKeepsFaithful(before[|before| - 1], h[|h| - 1]);
    }
  }

  lemma StartIsFaithful(s: Snapshot)
    requires Started(s)
    ensures Faithful(s.frames, s.log)
  {
    assert s.log == [s.log[0]] && VersionsOf(s.log) == {s.log[0].version};
  }

  lemma PollKeepsFaithful(a: Snapshot, b: Snapshot)
    requires Faithful(a.frames, a.log) && Polled(a, b)
    ensures Faithful(b.frames, b.log)
  {
    var head, u, k :| Poll(a, b, head, u, k);
    GrowsFaithful(a.frames, b.frames, a.log);
    DeliverPrefix(b.frames, a.log, head, u, k);
  }

  /** A poll that is not interrupted leaves no frame up to its head undelivered. */
  lemma WholePollCatchesUp(a: Snapshot, b: Snapshot, head: Head, u: seq<Head>, v: Version)
    requires Faithful(a.frames, a.log) && Poll(a, b, head, u, |u|)
    requires v in b.frames && a.log[0].mtime <= b.frames[v] <= head.mtime
    ensures v in VersionsOf(b.log)
  {
    GrowsFaithful(a.frames, b.frames, a.log);
    assert u[..|u|] == u;
    if v in VersionsOf(a.log) {
      var h :| h in a.log && h.version == v;
      assert h in b.log;
    } else {
      assert Fresh(a.log[|a.log| - 1], head, v, b.frames[v]);
      var h :| h in u && h.version == v;
      assert h in b.log;
    }
  }

  lemma CompleteRepeats(frames: Frames, log: seq<Head>, head: Head, u: seq<Head>)
    requires Faithful(frames, log) && Complete(frames, log[|log| - 1], head, u)
    ensures (exists i | 0 <= i < |u| :: u[i].version in VersionsOf(log)) <==> head.version in VersionsOf(log)
  {
    forall i | 0 <= i < |u| { UpdatesAreNew(frames, log, head, u, i); }
    if head.version in VersionsOf(log) { assert u[|u| - 1].version in VersionsOf(log); }
  }

  /** The product is published in full frames, the listing shows them all, and none has expired. */
  ghost predicate FramesShown(store: Store, listing: seq<Path>, product: Product, frames: Frames, cursor: Head,
                              head: Head) {
    && ReadManifest(store, head).Success? && ReadManifest(store, head).value.delta.None?
    && Lists(store, listing, frames) && HeadListed(frames, head)
    && (cursor.version != head.version ==> !Expired(store, listing, product, cursor, head))
  }

  lemma ShownIsComplete(store: Store, listing: seq<Path>, product: Product, frames: Frames, cursor: Head, head: Head,
                        u: seq<Head>)
    requires Answers(store, listing, product, cursor, head, u) && cursor.version != head.version
    requires FramesShown(store, listing, product, frames, cursor, head)
    ensures Complete(frames, cursor, head, u) && Annotated(cursor, u)
  {
    assert AnswersFrames(store, listing, cursor, head, u);
  }

  /**
   The condition on the head is exact: a poll delivers a frame a second time if and only if its
   head is not the one committed last but had been delivered before that.
   */
  lemma RepeatIffHeadRepeats(store: Store, listing: seq<Path>, product: Product, frames: Frames, log: seq<Head>,
                             head: Head, u: seq<Head>)
    requires Faithful(frames, log) && Answers(store, listing, product, log[|log| - 1], head, u)
    requires FramesShown(store, listing, product, frames, log[|log| - 1], head)
    ensures (exists i | 0 <= i < |u| :: u[i].version in VersionsOf(log)) <==>
              head.version != log[|log| - 1].version && head.version in VersionsOf(log)
  {
    if head.version != log[|log| - 1].version {
      ShownIsComplete(store, listing, product, frames, log[|log| - 1], head, u);
      CompleteRepeats(frames, log, head, u);
    }
  }

  /** Two frames of one time; the current one is `a`. */
  function TwoFrames(): Store {
    var a, b := Path("p", "a", false), Path("p", "b", false);
    Store(map["p" := a], map[a := File(Manifest("p", "a", None, None, Good, Absent), 5),
                             b := File(Manifest("p", "b", None, None, Good, Absent), 5)])
  }

  lemma TwoFramesAnswer(frames: Frames)
    requires Lists(TwoFrames(), [Path("p", "a", false), Path("p", "b", false)], frames)
    ensures frames == map["a" := 5, "b" := 5]
  {
    var listing := [Path("p", "a", false), Path("p", "b", false)];
    assert listing[0] in TwoFrames().files && listing[1] in TwoFrames().files;
    assert frames.Keys == {"a", "b"};
  }

  /** The first was delivered and is still the head; the second, which came later with the same time, has to wait. */
  lemma LateTwinWaits()
    ensures var frames: Frames, listing := map["a" := 5, "b" := 5], [Path("p", "a", false), Path("p", "b", false)];
            var a := Head("a", listing[0], 5, {}, false);
            && Faithful(frames, [a]) && Answers(TwoFrames(), listing, "p", a, a, [])
            && FramesShown(TwoFrames(), listing, "p", frames, a, a) && "b" !in VersionsOf([a])
  {
    var listing := [Path("p", "a", false), Path("p", "b", false)];
    var a := Head("a", listing[0], 5, {}, false);
    assert listing[0] in TwoFrames().files && listing[1] in TwoFrames().files;
    assert VersionsOf([a]) == {"a"} by { assert a in [a]; }
  }

  /** Both were delivered; then the head is set back to the first of them, which is delivered again. */
  lemma HeadSetBackRepeats()
    ensures var frames: Frames, listing := map["a" := 5, "b" := 5], [Path("p", "a", false), Path("p", "b", false)];
            var a, b := Head("a", listing[0], 5, {}, false), Head("b", listing[1], 5, {"a", "b"}, false);
            var again := a.(sameTime := {"a", "b"});
            && Faithful(frames, [a, b]) && Answers(TwoFrames(), listing, "p", b, a, [again])
            && FramesShown(TwoFrames(), listing, "p", frames, b, a) && again.version in VersionsOf([a, b])
  {
    var listing := [Path("p", "a", false), Path("p", "b", false)];
    var a, b := Head("a", listing[0], 5, {}, false), Head("b", listing[1], 5, {"a", "b"}, false);
    assert VersionsOf([a, b]) == {"a", "b"} by { assert a in [a, b] && b in [a, b]; }
    TwoFramesDelivered(a, b);
    TwoFramesShown(a, b);
  }

  lemma TwoFramesDelivered(a: Head, b: Head)
    requires a == Head("a", Path("p", "a", false), 5, {}, false)
    requires b == Head("b", Path("p", "b", false), 5, {"a", "b"}, false)
    ensures Faithful(map["a" := 5, "b" := 5], [a, b])
  {
    assert VersionsOf([a, b]) == {"a", "b"} by { assert a in [a, b] && b in [a, b]; }
  }

  lemma TwoFramesShown(a: Head, b: Head)
    requires a == Head("a", Path("p", "a", false), 5, {}, false)
    requires b == Head("b", Path("p", "b", false), 5, {"a", "b"}, false)
    ensures var listing := [a.path, b.path];
            && FramesShown(TwoFrames(), listing, "p", map["a" := 5, "b" := 5], b, a)
            && Answers(TwoFrames(), listing, "p", b, a, [a.(sameTime := {"a", "b"})])
  {
    var listing, again := [a.path, b.path], a.(sameTime := {"a", "b"});
    assert listing[0] in TwoFrames().files && listing[1] in TwoFrames().files;
    forall f: Frames | Lists(TwoFrames(), listing, f) && HeadListed(f, a) ensures Complete(f, b, a, [again]) {
      TwoFramesAnswer(f);
    }
    assert Annotated(b, [again]);
  }
}
