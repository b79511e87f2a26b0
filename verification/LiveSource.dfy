/**
 The publication reader of tools/live_feed_archive.py: which updates follow a committed head,
 and which archive event each of them becomes.
 */
module LiveSource {
  import opened Wrappers

  type Product = string
  type Version = string

  /** `versions/<product>/<version>.json`, or the same name with the `.checkpoint` suffix. */
  datatype Path = Path(product: Product, version: Version, checkpoint: bool)

  datatype DeltaRef = DeltaRef(fromVersion: Version, toVersion: Version)

  /** A copied payload is missing, fails its recorded identity, or is good. */
  datatype Payload = Absent | Corrupt | Good

  datatype Manifest = Manifest(
    product: Product, version: Version, previous: Option<Version>, delta: Option<DeltaRef>,
    state: Payload, deltaPayload: Payload)

  datatype File = File(manifest: Manifest, mtime: nat)

  /** `current.json` and the version manifests beside it. */
  datatype Store = Store(current: map<Product, Path>, files: map<Path, File>)

  /** A cursor into one product's history, as committed in the heads table. */
  datatype Head = Head(version: Version, path: Path, mtime: nat, sameTime: set<Version>, gap: bool)

  datatype Kind = Baseline | Delta(base: Version) | Replacement

  /** What `make_event` returns: the event's kind, the head it commits, and whether it resumes after a gap. */
  datatype Made = Made(kind: Kind, head: Head, gap: bool)

  /** `FileNotFoundError`, against every `ValueError`. */
  datatype Error = Missing | Invalid

  // ----- Reading -----

  function ReadManifest(store: Store, head: Head): Result<Manifest, Error> {
    if head.path !in store.files then Failure(Missing)
    else
      var value := store.files[head.path].manifest;
      if value.version != head.version then Failure(Invalid) else Success(value)
  }

  /** `heads`: one unreadable manifest fails the whole read. */
  function Heads(store: Store): Result<map<Product, Head>, Error> {
    if exists p | p in store.current :: store.current[p] !in store.files then Failure(Missing)
    else Success(map p | p in store.current ::
                   Head(store.current[p].version, store.current[p], store.files[store.current[p]].mtime, {}, false))
  }

  function CurrentHead(store: Store, product: Product): Result<Head, Error> {
    var heads :- Heads(store);
    if product in heads then Success(heads[product]) else Failure(Invalid)
  }

  function CopyState(value: Manifest, head: Head): Result<Made, Error> {
    match value.state
    case Absent => Failure(Missing)
    case Corrupt => Failure(Invalid)
    case Good => Success(Made(Baseline, head, false))
  }

  /** `_baseline`: the full state of exactly this head. */
  function ExactBaseline(store: Store, product: Product, head: Head): Result<Made, Error> {
    var value :- ReadManifest(store, head);
    if value.product != product then Failure(Invalid) else CopyState(value, head)
  }

  /** What was taken is the head asked for, its version under the name it has now, or something after a gap. */
  predicate Takes(made: Made, head: Head) {
    made.gap || made.head == head || (made.head.version == head.version && made.head.path != head.path)
  }

  /** `baseline`: fall back to the current head when this one has expired, latching a gap. */
  function MakeBaseline(store: Store, product: Product, head: Head): (r: Result<Made, Error>)
    ensures r.Success? ==> r.value.kind.Baseline? && Takes(r.value, head)
  {
    var first := ExactBaseline(store, product, head);
    if first.Success? || first.error.Invalid? then first
    else
      var current :- CurrentHead(store, product);
      if current.version == head.version && current.path == head.path then Failure(Missing)
      else
        var made :- ExactBaseline(store, product, current);
        Success(made.(gap := current.version != head.version))
  }

  /** `update`: the event that moves the archive from the committed head to the next one. */
  function MakeUpdate(store: Store, product: Product, previous: Head, head: Head): (r: Result<Made, Error>)
    ensures r.Success? && r.value.kind.Delta? ==>
              r.value.kind.base == previous.version && r.value.head == head && !r.value.gap
    ensures r.Success? && r.value.kind.Baseline? ==> r.value.gap
    ensures r.Success? ==> Takes(r.value, head)
  {
    if head.gap then
      var made :- MakeBaseline(store, product, head);
      Success(made.(gap := true))
    else
      var value :- ReadManifest(store, head);
      if value.delta.Some? then
        if value.delta.value != DeltaRef(previous.version, head.version) then Failure(Invalid)
        else match value.deltaPayload
             case Absent => Failure(Missing)
             case Corrupt => Failure(Invalid)
             case Good => Success(Made(Delta(previous.version), head, false))
      else
        var made :- MakeBaseline(store, product, head);
        Success(made.(kind := Replacement))
  }

  // ----- What is taken, read off the store -----

  /** The file the head names is there and is of its version. */
  ghost predicate Reads(store: Store, head: Head, m: Manifest) {
    head.path in store.files && store.files[head.path].manifest == m && m.version == head.version
  }

  ghost predicate HasState(store: Store, product: Product, head: Head, state: Payload) {
    exists m :: Reads(store, head, m) && m.product == product && m.state == state
  }

  /** The head that `current.json` names for the product; every product's manifest must be there. */
  ghost predicate IsCurrent(store: Store, product: Product, head: Head) {
    && (forall p | p in store.current :: store.current[p] in store.files)
    && product in store.current
    && head == Head(store.current[product].version, store.current[product], store.files[store.current[product]].mtime,
                    {}, false)
  }

  /**
   The full state that is taken for a head: its own or, where its manifest or its state is gone and the
   product has meanwhile another current head, that one's; it then is a gap if the version is another.
   */
  ghost predicate StateTaken(store: Store, product: Product, head: Head, taken: Head, gap: bool) {
    if HasState(store, product, head, Good) then taken == head && !gap
    else
      && (head.path !in store.files || HasState(store, product, head, Absent))
      && IsCurrent(store, product, taken) && !(taken.version == head.version && taken.path == head.path)
      && HasState(store, product, taken, Good) && gap == (taken.version != head.version)
  }

  /** The event taken for an update: the delta if its manifest has one, else a full state. */
  ghost predicate UpdateTaken(store: Store, product: Product, previous: Head, head: Head, made: Made) {
    if head.gap
    then made.kind.Baseline? && made.gap && exists gap :: StateTaken(store, product, head, made.head, gap)
    else exists m | Reads(store, head, m) :: TakenBy(store, product, m, previous, head, made)
  }

  ghost predicate TakenBy(store: Store, product: Product, m: Manifest, previous: Head, head: Head, made: Made) {
    if m.delta.Some?
    then && m.delta.value.fromVersion == previous.version && m.delta.value.toVersion == head.version
         && m.deltaPayload.Good? && made == Made(Delta(previous.version), head, false)
    else made.kind.Replacement? && StateTaken(store, product, head, made.head, made.gap)
  }

  /** `heads` reads every product's current head, or fails. */
  lemma HeadsAreCurrent(store: Store, heads: map<Product, Head>)
    ensures Heads(store) == Success(heads) <==>
              && heads.Keys == store.current.Keys && (forall p | p in heads :: IsCurrent(store, p, heads[p]))
    ensures Heads(store).Failure? <==> exists p | p in store.current :: store.current[p] !in store.files
  {
    if heads.Keys == store.current.Keys && forall p | p in heads :: IsCurrent(store, p, heads[p]) {
      forall p | p in store.current ensures store.current[p] in store.files { assert IsCurrent(store, p, heads[p]); }
      assert heads == Heads(store).value;
    }
  }

  lemma CurrentIff(store: Store, product: Product, head: Head)
    ensures CurrentHead(store, product) == Success(head) <==> IsCurrent(store, product, head)
  {}

  lemma ExactIff(store: Store, product: Product, head: Head)
    ensures ExactBaseline(store, product, head).Success? <==> HasState(store, product, head, Good)
    ensures ExactBaseline(store, product, head).Success? ==>
              ExactBaseline(store, product, head).value == Made(Baseline, head, false)
    ensures ExactBaseline(store, product, head) == Failure(Missing) <==>
              head.path !in store.files || HasState(store, product, head, Absent)
  {
    var m := ReadManifest(store, head);
    if m.Success? { assert Reads(store, head, m.value); }
  }

  /** `baseline` takes exactly that state. */
  lemma BaselineIff(store: Store, product: Product, head: Head, made: Made)
    ensures MakeBaseline(store, product, head) == Success(made) <==>
              made.kind.Baseline? && StateTaken(store, product, head, made.head, made.gap)
  {
    ExactIff(store, product, head);
    if CurrentHead(store, product).Success? { ExactIff(store, product, CurrentHead(store, product).value); }
    CurrentIff(store, product, made.head);
    if made.kind.Baseline? { assert made == Made(Baseline, made.head, made.gap); }
  }

  /** `update` makes exactly that event. */
  lemma UpdateIff(store: Store, product: Product, previous: Head, head: Head, made: Made)
    ensures MakeUpdate(store, product, previous, head) == Success(made) <==>
              UpdateTaken(store, product, previous, head, made)
  {
    var base := MakeBaseline(store, product, head);
    if base.Success? { BaselineIff(store, product, head, base.value); }
    BaselineIff(store, product, head, made.(kind := Baseline));
    BaselineIff(store, product, head, made.(kind := Baseline, gap := false));
    var m := ReadManifest(store, head);
    if m.Success? { assert Reads(store, head, m.value); }
  }

  /** The full state of the update is gone, and the current one was published at or after `start`. */
  predicate Superseded(store: Store, product: Product, update: Head, start: int) {
    && (update.gap || (ReadManifest(store, update).Success? && ReadManifest(store, update).value.delta.None?))
    && ExactBaseline(store, product, update) == Failure(Missing)
    && CurrentHead(store, product).Success? && CurrentHead(store, product).value.mtime >= start
  }

  /**
   What is taken for an update published before `start` is dated at or after it if and only if it was
   superseded.
   */
  lemma TakenLateIff(store: Store, product: Product, previous: Head, update: Head, start: int)
    requires update.mtime < start && MakeUpdate(store, product, previous, update).Success?
    ensures MakeUpdate(store, product, previous, update).value.head.mtime >= start <==>
              Superseded(store, product, update, start)
  {}

  /** And it then carries a gap if and only if that head is another version, or the update was one after a gap. */
  lemma TakenLateGapIff(store: Store, product: Product, previous: Head, update: Head, start: int)
    requires update.mtime < start && MakeUpdate(store, product, previous, update).Success?
    requires MakeUpdate(store, product, previous, update).value.head.mtime >= start
    ensures MakeUpdate(store, product, previous, update).value.gap <==>
              update.gap || CurrentHead(store, product).value.version != update.version
  {}

  /** A product whose current version `v` was published at time 9 under this name, and an update of time 3. */
  function Republished(v: Version, checkpoint: bool): Store {
    var first, now := Path("p", "a", false), Path("p", v, checkpoint);
    Store(map["p" := now], map[first := File(Manifest("p", "a", None, None, Absent, Absent), 3),
                               now := File(Manifest("p", v, None, None, Good, Absent), 9)])
  }

  /** Midnight is at 5. The frame of time 3 has expired: the later one is taken, with a gap. */
  lemma ExpiredIsTakenLate(previous: Head)
    ensures var update := Head("a", Path("p", "a", false), 3, {}, false);
            var made := MakeUpdate(Republished("b", false), "p", previous, update);
            made.Success? && made.value.head.version == "b" && made.value.head.mtime == 9 && made.value.gap
  {}

  /** The frame of time 3 was compacted under another name: it is taken with the time of that file, without a gap. */
  lemma RenamedIsTakenLate(previous: Head)
    ensures var update := Head("a", Path("p", "a", false), 3, {}, false);
            var made := MakeUpdate(Republished("a", true), "p", previous, update);
            made.Success? && made.value.head.version == "a" && made.value.head.mtime == 9 && !made.value.gap
  {}

  // ----- Delta products: walking the manifest chain -----

  /** Where a parent version's manifest is read from: the plain name if it exists, else the checkpoint. */
  function ParentPath(store: Store, product: Product, parent: Version): Path {
    var plain, compacted := Path(product, parent, false), Path(product, parent, true);
    if plain !in store.files && compacted in store.files then compacted else plain
  }

  function ParentHead(store: Store, product: Product, parent: Version): Result<Head, Error> {
    var path := ParentPath(store, product, parent);
    if path !in store.files then Failure(Missing)
    else Success(Head(parent, path, store.files[path].mtime, {}, false))
  }

  /** The head is read from its version's plain manifest or, only where there is none, from the checkpoint. */
  ghost predicate IsParent(store: Store, product: Product, head: Head) {
    var plain, compacted := Path(product, head.version, false), Path(product, head.version, true);
    && head.sameTime == {} && !head.gap && head.path in store.files && head.mtime == store.files[head.path].mtime
    && (head.path == plain || (head.path == compacted && plain !in store.files))
  }

  /** The store has no manifest of the version any more. */
  ghost predicate Gone(store: Store, product: Product, version: Version) {
    forall path: Path | path.product == product && path.version == version :: path !in store.files
  }

  /** The lookup of a parent finds it wherever a plain or a checkpoint manifest of it is left. */
  lemma ParentFound(store: Store, product: Product, parent: Version)
    ensures ParentHead(store, product, parent).Failure? <==> Gone(store, product, parent)
    ensures ParentHead(store, product, parent).Failure? ==> ParentHead(store, product, parent).error.Missing?
    ensures forall head: Head | head.version == parent ::
              ParentHead(store, product, parent) == Success(head) <==> IsParent(store, product, head)
    ensures ParentHead(store, product, parent).Success? ==> ParentHead(store, product, parent).value.version == parent
  {
    var plain, compacted := Path(product, parent, false), Path(product, parent, true);
    assert forall path: Path | path.product == product && path.version == parent :: path == plain || path == compacted;
  }

  /** The manifest of `head` names `parent` as its predecessor. */
  ghost predicate Follows(store: Store, product: Product, parent: Version, head: Head) {
    var m := ReadManifest(store, head);
    m.Success? && m.value.product == product && m.value.previous == Some(parent)
  }

  /** Every head in `chain` directly follows the one before it, starting after `from`, all versions new. */
  ghost predicate Linked(store: Store, product: Product, from: Version, chain: seq<Head>) {
    && chain != []
    && var last := |chain| - 1;
    && (forall i | 0 <= i < last :: chain[i].version != chain[last].version)
    && if last == 0 then Follows(store, product, from, chain[0])
       else
         && Linked(store, product, from, chain[..last])
         && chain[last - 1].version != from
         && IsParent(store, product, chain[last - 1])
         && Follows(store, product, chain[last - 1].version, chain[last])
  }

  function Versions(store: Store): set<Version> {
    set path | path in store.files :: store.files[path].manifest.version
  }

  /** What the walk back from `cursor` yields: the heads after `previous`, oldest first. */
  datatype Walk = Chain(heads: seq<Head>) | ProducerReset

  function WalkBack(store: Store, product: Product, previous: Version, cursor: Head, seen: set<Version>)
    : (r: Result<Walk, Error>)
    requires cursor.version != previous
    decreases Versions(store) - seen
  {
    if cursor.version in seen then Failure(Invalid)
    else
      var value :- ReadManifest(store, cursor);
      if value.product != product then Failure(Invalid)
      else if value.previous.None? then Success(ProducerReset)
      else if value.previous.value == previous then Success(Chain([cursor]))
      else
        var parent :- ParentHead(store, product, value.previous.value);
        assert cursor.version in Versions(store) by { assert cursor.path in store.files; }
        var rest :- WalkBack(store, product, previous, parent, seen + {cursor.version});
        Success(match rest case Chain(heads) => Chain(heads + [cursor]) case ProducerReset => ProducerReset)
  }

  /** The loop of `_updates` for products with deltas; it ends on every finite store. */
  method WalkChain(store: Store, product: Product, previous: Head, head: Head) returns (r: Result<Walk, Error>)
    requires previous.version != head.version
    ensures r == WalkBack(store, product, previous.version, head, {})
  {
    var chain: seq<Head>, cursor, seen: set<Version> := [], head, {};
    AppendedTwice(WalkBack(store, product, previous.version, head, {}), [], []);
    while true
      invariant cursor.version != previous.version
      invariant WalkBack(store, product, previous.version, head, {})
             == Appended(WalkBack(store, product, previous.version, cursor, seen), chain)
      decreases Versions(store) - seen
    {
      if cursor.version in seen { return Failure(Invalid); }
      var value :- ReadManifest(store, cursor);
      if value.product != product { return Failure(Invalid); }
      assert cursor.version in Versions(store) by { assert cursor.path in store.files; }
      chain := [cursor] + chain;
      if value.previous.None? { return Success(ProducerReset); }
      if value.previous.value == previous.version { return Success(Chain(chain)); }
      var parent :- ParentHead(store, product, value.previous.value);
      AppendedTwice(WalkBack(store, product, previous.version, parent, seen + {cursor.version}), [cursor], chain[1..]);
      seen := seen + {cursor.version};
      cursor := parent;
    }
  }

  lemma AppendedTwice(r: Result<Walk, Error>, a: seq<Head>, b: seq<Head>)
    ensures Appended(r, []) == r
    ensures Appended(Appended(r, a), b) == Appended(r, a + b)
  {
    if r.Success? && r.value.Chain? {
      assert r.value.heads + [] == r.value.heads;
      assert r.value.heads + a + b == r.value.heads + (a + b);
    }
  }

  ghost function Appended(r: Result<Walk, Error>, chain: seq<Head>): Result<Walk, Error> {
    if r.Success? && r.value.Chain? then Success(Chain(r.value.heads + chain)) else r
  }

  /** A successful walk is a linked chain of new versions. */
  lemma {:induction false} WalkIsLinked(store: Store, product: Product, previous: Version, cursor: Head,
                                        seen: set<Version>)
    requires cursor.version != previous
    ensures var r := WalkBack(store, product, previous, cursor, seen);
            r.Success? && r.value.Chain? ==>
              && Linked(store, product, previous, r.value.heads)
              && r.value.heads[|r.value.heads| - 1] == cursor
              && forall i | 0 <= i < |r.value.heads| :: r.value.heads[i].version !in seen
    decreases Versions(store) - seen
  {
    var r := WalkBack(store, product, previous, cursor, seen);
    if r.Success? && r.value.Chain? {
      var value := ReadManifest(store, cursor).value;
      if value.previous.value == previous {
        assert r.value.heads == [cursor];
      } else {
        assert cursor.version in Versions(store) by { assert cursor.path in store.files; }
        ParentFound(store, product, value.previous.value);
        var parent := ParentHead(store, product, value.previous.value).value;
        WalkIsLinked(store, product, previous, parent, seen + {cursor.version});
        var rest := WalkBack(store, product, previous, parent, seen + {cursor.version}).value.heads;
        var all := rest + [cursor];
        assert r.value.heads == all && all[..|all| - 1] == rest;
      }
    }
  }

  /** Conversely, any linked chain that ends at the cursor is what the walk returns. */
  lemma {:induction false} LinkedIsWalk(store: Store, product: Product, previous: Version, chain: seq<Head>,
                                        seen: set<Version>)
    requires Linked(store, product, previous, chain) && chain[|chain| - 1].version != previous
    requires forall i | 0 <= i < |chain| :: chain[i].version !in seen
    ensures WalkBack(store, product, previous, chain[|chain| - 1], seen) == Success(Chain(chain))
    decreases |chain|
  {
    var last := |chain| - 1;
    if last == 0 {
      assert chain == [chain[0]];
    } else {
      ParentFound(store, product, chain[last - 1].version);
      LinkedIsWalk(store, product, previous, chain[..last], seen + {chain[last].version});
      assert chain == chain[..last] + [chain[last]];
    }
  }

  /** The walk succeeds with exactly the linked chain from the committed head, and only with that. */
  lemma WalkExact(store: Store, product: Product, previous: Version, head: Head, chain: seq<Head>)
    requires head.version != previous
    ensures WalkBack(store, product, previous, head, {}) == Success(Chain(chain))
       <==> Linked(store, product, previous, chain) && chain[|chain| - 1] == head
  {
    WalkIsLinked(store, product, previous, head, {});
    if Linked(store, product, previous, chain) && chain[|chain| - 1] == head {
      LinkedIsWalk(store, product, previous, chain, {});
    }
  }

  /** The heads lead back from the last one, each the parent of the next, without reaching `previous`. */
  ghost predicate Back(store: Store, product: Product, previous: Version, chain: seq<Head>) {
    && chain != []
    && var last := |chain| - 1;
    && chain[last].version != previous && (forall i | 0 <= i < last :: chain[i].version != chain[last].version)
    && var m := ReadManifest(store, chain[last]);
    && m.Success? && m.value.product == product
    && (last > 0 ==>
          && Back(store, product, previous, chain[..last])
          && m.value.previous == Some(chain[last - 1].version) && IsParent(store, product, chain[last - 1]))
  }

  /** The chain breaks off before it reaches `previous`: at a version without a parent, or whose parent is gone. */
  ghost predicate Lost(store: Store, product: Product, previous: Version, chain: seq<Head>) {
    && Back(store, product, previous, chain)
    && var m := ReadManifest(store, chain[0]);
    && m.Success?
    && (m.value.previous.None? || (m.value.previous.value != previous && Gone(store, product, m.value.previous.value)))
  }

  predicate BreaksOff(r: Result<Walk, Error>) { r == Failure(Missing) || r == Success(ProducerReset) }

  lemma {:induction false} BreaksOffIsLost(store: Store, product: Product, previous: Version, cursor: Head,
                                           seen: set<Version>) returns (chain: seq<Head>)
    requires cursor.version != previous && ReadManifest(store, cursor).Success?
    requires BreaksOff(WalkBack(store, product, previous, cursor, seen))
    ensures Lost(store, product, previous, chain) && chain[|chain| - 1] == cursor
    ensures forall i | 0 <= i < |chain| :: chain[i].version !in seen
    decreases Versions(store) - seen
  {
    var value := ReadManifest(store, cursor).value;
    if value.previous.None? || Gone(store, product, value.previous.value) {
      chain := [cursor];
      if value.previous.Some? { ParentFound(store, product, value.previous.value); }
    } else {
      ParentFound(store, product, value.previous.value);
      var parent := ParentHead(store, product, value.previous.value).value;
      assert cursor.version in Versions(store) by { assert cursor.path in store.files; }
      ParentReads(store, product, previous, parent, seen + {cursor.version});
      var rest := BreaksOffIsLost(store, product, previous, parent, seen + {cursor.version});
      chain := rest + [cursor];
      assert chain[..|rest|] == rest;
    }
  }

  /** A parent that was found can be read, unless it is an impostor, which is an error and no loss. */
  lemma ParentReads(store: Store, product: Product, previous: Version, parent: Head, seen: set<Version>)
    requires parent.version != previous && parent.path in store.files
    requires BreaksOff(WalkBack(store, product, previous, parent, seen))
    ensures ReadManifest(store, parent).Success?
  {}

  lemma {:induction false} LostBreaksOff(store: Store, product: Product, previous: Version, chain: seq<Head>,
                                         seen: set<Version>)
    requires Lost(store, product, previous, chain) && forall i | 0 <= i < |chain| :: chain[i].version !in seen
    ensures BreaksOff(WalkBack(store, product, previous, chain[|chain| - 1], seen))
    decreases |chain|
  {
    var last := |chain| - 1;
    var value := ReadManifest(store, chain[last]).value;
    if value.previous.Some? { ParentFound(store, product, value.previous.value); }
    if last > 0 {
      assert chain[..last][0] == chain[0];
      LostBreaksOff(store, product, previous, chain[..last], seen + {chain[last].version});
    }
  }

  /** The walk ends in a gap if and only if the chain of manifests breaks off. */
  lemma BreaksOffIff(store: Store, product: Product, previous: Version, head: Head)
    requires head.version != previous && ReadManifest(store, head).Success?
    ensures BreaksOff(WalkBack(store, product, previous, head, {})) <==>
              exists chain :: Lost(store, product, previous, chain) && chain[|chain| - 1] == head
  {
    if BreaksOff(WalkBack(store, product, previous, head, {})) {
      var chain := BreaksOffIsLost(store, product, previous, head, {});
    }
    if chain :| Lost(store, product, previous, chain) && chain[|chain| - 1] == head {
      LostBreaksOff(store, product, previous, chain, {});
    }
  }

  /** The producer's manifests give each delta the versions it connects, and the payloads are there. */
  ghost predicate Consistent(store: Store) {
    forall path | path in store.files ::
      var m := store.files[path].manifest;
      m.previous.Some? ==> m.delta == Some(DeltaRef(m.previous.value, m.version)) && m.deltaPayload.Good?
  }

  /**
   On a consistent store every head of the chain becomes a delta that joins the state committed
   just before it, so draining the chain never fails and never leaves a gap.
   */
  lemma {:induction false} ChainBecomesDeltas(store: Store, product: Product, previous: Head, chain: seq<Head>, i: nat)
    requires Consistent(store) && Linked(store, product, previous.version, chain) && i < |chain| && !chain[i].gap
    ensures var before := if i == 0 then previous else chain[i - 1];
            MakeUpdate(store, product, before, chain[i]) == Success(Made(Delta(before.version), chain[i], false))
    decreases |chain|
  {
    if i < |chain| - 1 {
      ChainBecomesDeltas(store, product, previous, chain[..|chain| - 1], i);
    } else {
      assert chain[i].path in store.files;
    }
  }
}
