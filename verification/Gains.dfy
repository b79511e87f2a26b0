/**
 What the collector of tools/product_archive.py adds to a batch: for each product the answer of one
 poll, taken update by update, each event exactly what reading the source then produced.
 */
module Gains {
  import opened Wrappers
  import opened LiveSource
  import opened FullFrames
  import opened ArchiveModel
  import opened ArchiveContents

  /**
   A publication being read while its producer goes on writing: what the n-th look at it finds,
   how many bytes the n-th copy takes, and how large the index files then are.
   */
  datatype Feed = Feed(
    identity: Source, stores: nat -> Store, listings: (nat, Product) -> seq<Path>,
    bytes: nat -> nat, overhead: nat -> nat)

  /** The answer of the source, at one look, to what follows a committed head. */
  ghost predicate Answered(feed: Feed, look: nat, product: Product, previous: Head, head: Head, u: seq<Head>) {
    Answers(feed.stores(look), feed.listings(look, product), product, previous, head, u)
  }

  // ----- Single events -----

  function EffectiveTime(made: Made, at: int): int {
    if made.head.mtime != 0 && (!made.kind.Baseline? || made.gap) then made.head.mtime else at
  }

  function EventOf(product: Product, made: Made, dir: Dir, at: int, bytes: nat): Event {
    Event(product, made.kind, made.head, made.gap, dir, EffectiveTime(made, at), bytes)
  }

  /**
   When an event counts: a delta, a replacement or whatever comes after a gap from its publication on, and
   a full state, or one without a publication time, from the time it was captured for.
   */
  predicate Dated(e: Event, at: int) {
    && (e.head.mtime != 0 && (e.kind.Delta? || e.kind.Replacement? || e.gap) ==> e.effective == e.head.mtime)
    && (e.head.mtime == 0 || (e.kind.Baseline? && !e.gap) ==> e.effective == at)
  }

  /** The event is what the source yielded at this look for the update, on top of the head committed before. */
  ghost predicate TakenAt(feed: Feed, at: int, look: nat, e: Event, product: Product, previous: Head, update: Head) {
    && e.product == product && Dated(e, at)
    && MakeUpdate(feed.stores(look), product, previous, update) == Success(Made(e.kind, e.head, e.gap))
  }

  ghost predicate TakenWithin(feed: Feed, at: int, lo: nat, hi: nat, e: Event, product: Product, previous: Head,
                              update: Head) {
    exists look: nat :: lo <= look < hi && TakenAt(feed, at, look, e, product, previous, update)
  }

  /** The event is the full state the source yielded at this look for a head. */
  ghost predicate OpenedAt(feed: Feed, at: int, look: nat, e: Event, product: Product, head: Head) {
    && e.product == product && Dated(e, at)
    && MakeBaseline(feed.stores(look), product, head) == Success(Made(e.kind, e.head, e.gap))
  }

  /** The head that the `i`th of these events was taken on top of. */
  function Before(previous: Head, es: seq<Event>, i: nat): Head
    requires i <= |es|
  {
    if i == 0 then previous else es[i - 1].head
  }

  /** The events are the first updates, in order, one event each. */
  ghost predicate TakenAll(feed: Feed, at: int, lo: nat, hi: nat, product: Product, previous: Head, es: seq<Event>,
                           u: seq<Head>) {
    && |es| <= |u|
    && forall i | 0 <= i < |es| :: TakenWithin(feed, at, lo, hi, es[i], product, Before(previous, es, i), u[i])
  }

  lemma TakenLonger(feed: Feed, at: int, lo: nat, hi: nat, lo': nat, hi': nat, product: Product, previous: Head,
                    es: seq<Event>, u: seq<Head>)
    requires TakenAll(feed, at, lo, hi, product, previous, es, u) && lo' <= lo && hi <= hi'
    ensures TakenAll(feed, at, lo', hi', product, previous, es, u)
  {
    forall i | 0 <= i < |es| ensures TakenWithin(feed, at, lo', hi', es[i], product, Before(previous, es, i), u[i]) {
      assert TakenWithin(feed, at, lo, hi, es[i], product, Before(previous, es, i), u[i]);
    }
  }

  lemma WithinLonger(feed: Feed, at: int, lo: nat, hi: nat, lo': nat, hi': nat, e: Event, product: Product,
                     previous: Head, update: Head)
    requires TakenWithin(feed, at, lo, hi, e, product, previous, update) && lo' <= lo && hi <= hi'
    ensures TakenWithin(feed, at, lo', hi', e, product, previous, update)
  {}

  lemma WithinNow(feed: Feed, at: int, lo: nat, look: nat, e: Event, product: Product, previous: Head, update: Head)
    requires lo <= look && TakenAt(feed, at, look, e, product, previous, update)
    ensures TakenWithin(feed, at, lo, look + 1, e, product, previous, update)
  {}

  lemma BeforeAppend(previous: Head, es: seq<Event>, e: Event, i: nat)
    requires i <= |es|
    ensures Before(previous, es + [e], i) == Before(previous, es, i)
  {}

  lemma TakenNext(feed: Feed, at: int, lo: nat, hi: nat, product: Product, previous: Head, es: seq<Event>, u: seq<Head>,
                  e: Event)
    requires TakenAll(feed, at, lo, hi, product, previous, es, u) && |es| < |u|
    requires TakenWithin(feed, at, lo, hi, e, product, Before(previous, es, |es|), u[|es|])
    ensures TakenAll(feed, at, lo, hi, product, previous, es + [e], u)
  {
    var es' := es + [e];
    forall i | 0 <= i < |es'| ensures TakenWithin(feed, at, lo, hi, es'[i], product, Before(previous, es', i), u[i]) {
      BeforeAppend(previous, es, e, i);
      if i < |es| {
        assert es'[i] == es[i] && TakenWithin(feed, at, lo, hi, es[i], product, Before(previous, es, i), u[i]);
      }
    }
  }

  /** The longest part of the updates that was published before the cutoff, if there is one. */
  ghost predicate CutOff(u: seq<Head>, n: nat, cutoff: Option<int>) {
    && n <= |u|
    && (forall i | 0 <= i < n && cutoff.Some? :: u[i].mtime < cutoff.value)
    && (n < |u| ==> cutoff.Some? && u[n].mtime >= cutoff.value)
  }

  ghost predicate BelowCutOff(u: seq<Head>, n: nat, cutoff: Option<int>) {
    n <= |u| && forall i | 0 <= i < n && cutoff.Some? :: u[i].mtime < cutoff.value
  }

  lemma BelowNext(u: seq<Head>, n: nat, cutoff: Option<int>)
    requires BelowCutOff(u, n, cutoff) && n < |u| && (cutoff.Some? ==> u[n].mtime < cutoff.value)
    ensures BelowCutOff(u, n + 1, cutoff)
  {}

  // ----- One product -----

  /**
   At one look the source answered `u` to what follows the committed head, and `es` were taken for
   the first of these updates; all of them were published before the cutoff.
   */
  ghost predicate Advance(feed: Feed, at: int, lo: nat, hi: nat, product: Product, previous: Head, head: Head,
                          cutoff: Option<int>, look: nat, u: seq<Head>, es: seq<Event>) {
    && lo <= look < hi && Answered(feed, look, product, previous, head, u)
    && TakenAll(feed, at, lo, hi, product, previous, es, u) && BelowCutOff(u, |es|, cutoff)
  }

  /** The product's new events are an advance, and its committed head is the last of them. */
  ghost predicate MovedBy(feed: Feed, at: int, lo: nat, hi: nat, product: Product, head: Head, cutoff: Option<int>,
                          b: Batch, b': Batch, look: nat, u: seq<Head>, es: seq<Event>) {
    && product in b.heads && product in b'.heads
    && Advance(feed, at, lo, hi, product, b.heads[product], head, cutoff, look, u, es)
    && OfProduct(b'.events, product) == OfProduct(b.events, product) + es
    && b'.heads[product] == Before(b.heads[product], es, |es|)
  }

  /** An advance; a full one took everything up to the cutoff. */
  ghost predicate Moved(feed: Feed, at: int, lo: nat, hi: nat, product: Product, head: Head, cutoff: Option<int>,
                        full: bool, b: Batch, b': Batch) {
    exists look, u, es ::
      MovedBy(feed, at, lo, hi, product, head, cutoff, b, b', look, u, es) && (full ==> CutOff(u, |es|, cutoff))
  }

  ghost predicate BegunBy(feed: Feed, at: int, lo: nat, hi: nat, product: Product, head: Head, b: Batch, b': Batch,
                          look: nat, e: Event) {
    && product !in b.heads && product in b'.heads
    && lo <= look < hi && OpenedAt(feed, at, look, e, product, head)
    && OfProduct(b'.events, product) == OfProduct(b.events, product) + [e] && b'.heads[product] == e.head
  }

  /** The product's history begins with a full state. */
  ghost predicate Begun(feed: Feed, at: int, lo: nat, hi: nat, product: Product, head: Head, b: Batch, b': Batch) {
    exists look, e :: BegunBy(feed, at, lo, hi, product, head, b, b', look, e)
  }

  ghost predicate Gained(feed: Feed, at: int, lo: nat, hi: nat, product: Product, head: Head, cutoff: Option<int>,
                         full: bool, b: Batch, b': Batch) {
    if product in b.heads then Moved(feed, at, lo, hi, product, head, cutoff, full, b, b')
    else Begun(feed, at, lo, hi, product, head, b, b')
  }

  /** Nothing happened to the product. */
  ghost predicate Same(product: Product, b: Batch, b': Batch) {
    && OfProduct(b'.events, product) == OfProduct(b.events, product)
    && (product in b'.heads <==> product in b.heads)
    && (product in b.heads ==> b'.heads[product] == b.heads[product])
  }

  lemma GainedLonger(feed: Feed, at: int, lo: nat, hi: nat, lo': nat, hi': nat, product: Product, head: Head,
                     cutoff: Option<int>, full: bool, b: Batch, b': Batch)
    requires Gained(feed, at, lo, hi, product, head, cutoff, full, b, b') && lo' <= lo && hi <= hi'
    ensures Gained(feed, at, lo', hi', product, head, cutoff, full, b, b')
  {
    if product in b.heads {
      var look, u, es :| MovedBy(feed, at, lo, hi, product, head, cutoff, b, b', look, u, es)
                         && (full ==> CutOff(u, |es|, cutoff));
      TakenLonger(feed, at, lo, hi, lo', hi', product, b.heads[product], es, u);
      assert MovedBy(feed, at, lo', hi', product, head, cutoff, b, b', look, u, es);
    } else {
      var look, e :| BegunBy(feed, at, lo, hi, product, head, b, b', look, e);
      assert BegunBy(feed, at, lo', hi', product, head, b, b', look, e);
    }
  }

  /** What came before or after and left the product alone does not matter. */
  lemma GainedAmong(feed: Feed, at: int, lo: nat, hi: nat, product: Product, head: Head, cutoff: Option<int>,
                    full: bool, b0: Batch, b1: Batch, b2: Batch, b3: Batch)
    requires Same(product, b0, b1) && Gained(feed, at, lo, hi, product, head, cutoff, full, b1, b2)
    requires Same(product, b2, b3)
    ensures Gained(feed, at, lo, hi, product, head, cutoff, full, b0, b3)
  {
    if product in b1.heads {
      var look, u, es :| MovedBy(feed, at, lo, hi, product, head, cutoff, b1, b2, look, u, es)
                         && (full ==> CutOff(u, |es|, cutoff));
      assert MovedBy(feed, at, lo, hi, product, head, cutoff, b0, b3, look, u, es);
    } else {
      var look, e :| BegunBy(feed, at, lo, hi, product, head, b1, b2, look, e);
      assert BegunBy(feed, at, lo, hi, product, head, b0, b3, look, e);
    }
  }

  lemma GainedPartly(feed: Feed, at: int, lo: nat, hi: nat, product: Product, head: Head, cutoff: Option<int>,
                     full: bool, b: Batch, b': Batch)
    requires Gained(feed, at, lo, hi, product, head, cutoff, full, b, b')
    ensures Gained(feed, at, lo, hi, product, head, cutoff, false, b, b')
  {
    if product in b.heads {
      var look, u, es :| MovedBy(feed, at, lo, hi, product, head, cutoff, b, b', look, u, es)
                         && (full ==> CutOff(u, |es|, cutoff));
    }
  }

  // ----- All products -----

  ghost predicate Stands(feed: Feed, at: int, lo: nat, hi: nat, heads: map<Product, Head>, cutoff: Option<int>,
                         b: Batch, b': Batch, done: set<Product>, p: Product) {
    if p in done && p in heads then Gained(feed, at, lo, hi, p, heads[p], cutoff, true, b, b') else Same(p, b, b')
  }

  /** Of the products in `done` those with a head have been brought up to it; nothing happened to any other. */
  ghost predicate Progress(feed: Feed, at: int, lo: nat, hi: nat, heads: map<Product, Head>, cutoff: Option<int>,
                           b: Batch, b': Batch, done: set<Product>) {
    b.events <= b'.events && forall p: Product :: Stands(feed, at, lo, hi, heads, cutoff, b, b', done, p)
  }

  ghost predicate StandsPartly(feed: Feed, at: int, lo: nat, hi: nat, heads: map<Product, Head>, cutoff: Option<int>,
                               b: Batch, b': Batch, p: Product) {
    Same(p, b, b') || (p in heads && Gained(feed, at, lo, hi, p, heads[p], cutoff, false, b, b'))
  }

  /** Whatever was added to a product is part of what its source answered for its head. */
  ghost predicate PartProgress(feed: Feed, at: int, lo: nat, hi: nat, heads: map<Product, Head>, cutoff: Option<int>,
                               b: Batch, b': Batch) {
    b.events <= b'.events && forall p: Product :: StandsPartly(feed, at, lo, hi, heads, cutoff, b, b', p)
  }

  /** One product was worked on. */
  ghost predicate OnlyGained(feed: Feed, at: int, lo: nat, hi: nat, product: Product, head: Head, cutoff: Option<int>,
                             full: bool, b: Batch, b': Batch) {
    && b.events <= b'.events && Gained(feed, at, lo, hi, product, head, cutoff, full, b, b')
    && forall p: Product | p != product :: Same(p, b, b')
  }

  /** One product was worked on, perhaps not to the end. */
  ghost predicate OnlyPart(feed: Feed, at: int, lo: nat, hi: nat, product: Product, head: Head, cutoff: Option<int>,
                           b: Batch, b': Batch) {
    && b.events <= b'.events
    && (Same(product, b, b') || Gained(feed, at, lo, hi, product, head, cutoff, false, b, b'))
    && forall p: Product | p != product :: Same(p, b, b')
  }

  lemma NoProgress(feed: Feed, at: int, lo: nat, hi: nat, heads: map<Product, Head>, cutoff: Option<int>, b: Batch,
                   b': Batch)
    requires b'.events == b.events && b'.heads == b.heads
    ensures Progress(feed, at, lo, hi, heads, cutoff, b, b', {})
  {}

  lemma ProgressNext(feed: Feed, at: int, lo: nat, mid: nat, hi: nat, heads: map<Product, Head>, cutoff: Option<int>,
                     b: Batch, b1: Batch, b2: Batch, done: set<Product>, product: Product)
    requires lo <= mid <= hi && Progress(feed, at, lo, mid, heads, cutoff, b, b1, done)
    requires product in heads && product !in done
    requires OnlyGained(feed, at, mid, hi, product, heads[product], cutoff, true, b1, b2)
    ensures Progress(feed, at, lo, hi, heads, cutoff, b, b2, done + {product})
  {
    forall p: Product
      ensures Stands(feed, at, lo, hi, heads, cutoff, b, b2, done + {product}, p)
    {
      assert Stands(feed, at, lo, mid, heads, cutoff, b, b1, done, p);
      if p == product {
        GainedLonger(feed, at, mid, hi, lo, hi, p, heads[p], cutoff, true, b1, b2);
        GainedAmong(feed, at, lo, hi, p, heads[p], cutoff, true, b, b1, b2, b2);
      } else {
        assert Same(p, b1, b2);
        if p in done && p in heads {
          GainedLonger(feed, at, lo, mid, lo, hi, p, heads[p], cutoff, true, b, b1);
          GainedAmong(feed, at, lo, hi, p, heads[p], cutoff, true, b, b, b1, b2);
        }
      }
    }
  }

  lemma ProgressSkips(feed: Feed, at: int, lo: nat, mid: nat, hi: nat, heads: map<Product, Head>, cutoff: Option<int>,
                      b: Batch, b': Batch, done: set<Product>, product: Product)
    requires Progress(feed, at, lo, mid, heads, cutoff, b, b', done) && mid <= hi && product !in heads
    ensures Progress(feed, at, lo, hi, heads, cutoff, b, b', done + {product})
  {
    forall p: Product
      ensures Stands(feed, at, lo, hi, heads, cutoff, b, b', done + {product}, p)
    {
      assert Stands(feed, at, lo, mid, heads, cutoff, b, b', done, p);
      if p in done && p in heads { GainedLonger(feed, at, lo, mid, lo, hi, p, heads[p], cutoff, true, b, b'); }
    }
  }

  /** A failure leaves what was taken before it, and part of what it interrupted. */
  lemma ProgressFails(feed: Feed, at: int, lo: nat, mid: nat, hi: nat, heads: map<Product, Head>, cutoff: Option<int>,
                      b: Batch, b1: Batch, b2: Batch, done: set<Product>, product: Product)
    requires lo <= mid <= hi && Progress(feed, at, lo, mid, heads, cutoff, b, b1, done)
    requires product in heads && product !in done
    requires OnlyPart(feed, at, mid, hi, product, heads[product], cutoff, b1, b2)
    ensures PartProgress(feed, at, lo, hi, heads, cutoff, b, b2)
  {
    forall p: Product
      ensures StandsPartly(feed, at, lo, hi, heads, cutoff, b, b2, p)
    {
      assert Stands(feed, at, lo, mid, heads, cutoff, b, b1, done, p);
      assert p != product ==> Same(p, b1, b2);
      if p in done && p in heads {
        GainedLonger(feed, at, lo, mid, lo, hi, p, heads[p], cutoff, true, b, b1);
        GainedAmong(feed, at, lo, hi, p, heads[p], cutoff, true, b, b, b1, b2);
        GainedPartly(feed, at, lo, hi, p, heads[p], cutoff, true, b, b2);
      } else if p == product && !Same(product, b1, b2) {
        GainedLonger(feed, at, mid, hi, lo, hi, p, heads[p], cutoff, false, b1, b2);
        GainedAmong(feed, at, lo, hi, p, heads[p], cutoff, false, b, b1, b2, b2);
      }
    }
  }

  lemma ProgressIsPart(feed: Feed, at: int, lo: nat, hi: nat, heads: map<Product, Head>, cutoff: Option<int>, b: Batch,
                       b': Batch, done: set<Product>)
    requires Progress(feed, at, lo, hi, heads, cutoff, b, b', done)
    ensures PartProgress(feed, at, lo, hi, heads, cutoff, b, b')
  {
    forall p: Product ensures StandsPartly(feed, at, lo, hi, heads, cutoff, b, b', p) {
      assert Stands(feed, at, lo, hi, heads, cutoff, b, b', done, p);
      if p in done && p in heads { GainedPartly(feed, at, lo, hi, p, heads[p], cutoff, true, b, b'); }
    }
  }

  lemma ProgressWider(feed: Feed, at: int, lo: nat, hi: nat, lo': nat, hi': nat, heads: map<Product, Head>,
                      cutoff: Option<int>, b: Batch, b': Batch, done: set<Product>)
    requires Progress(feed, at, lo, hi, heads, cutoff, b, b', done) && lo' <= lo && hi <= hi'
    ensures Progress(feed, at, lo', hi', heads, cutoff, b, b', done)
  {
    forall p: Product ensures Stands(feed, at, lo', hi', heads, cutoff, b, b', done, p) {
      assert Stands(feed, at, lo, hi, heads, cutoff, b, b', done, p);
      if p in done && p in heads { GainedLonger(feed, at, lo, hi, lo', hi', p, heads[p], cutoff, true, b, b'); }
    }
  }

  lemma PartWider(feed: Feed, at: int, lo: nat, hi: nat, lo': nat, hi': nat, heads: map<Product, Head>,
                  cutoff: Option<int>, b: Batch, b': Batch)
    requires PartProgress(feed, at, lo, hi, heads, cutoff, b, b') && lo' <= lo && hi <= hi'
    ensures PartProgress(feed, at, lo', hi', heads, cutoff, b, b')
  {
    forall p: Product ensures StandsPartly(feed, at, lo', hi', heads, cutoff, b, b', p) {
      assert StandsPartly(feed, at, lo, hi, heads, cutoff, b, b', p);
      if !Same(p, b, b') { GainedLonger(feed, at, lo, hi, lo', hi', p, heads[p], cutoff, false, b, b'); }
    }
  }

  // ----- How a product's history grows by events of its own -----

  lemma TookProducts(feed: Feed, at: int, lo: nat, hi: nat, product: Product, previous: Head, es: seq<Event>,
                     u: seq<Head>)
    requires TakenAll(feed, at, lo, hi, product, previous, es, u)
    ensures forall i | 0 <= i < |es| :: es[i].product == product
  {
    forall i | 0 <= i < |es| ensures es[i].product == product {
      assert TakenWithin(feed, at, lo, hi, es[i], product, Before(previous, es, i), u[i]);
    }
  }

  lemma OthersSame(b: Batch, b': Batch, es: seq<Event>, product: Product, head: Head)
    requires b'.events == b.events + es && (forall i | 0 <= i < |es| :: es[i].product == product)
    requires b'.heads == b.heads[product := head]
    ensures OfProduct(b'.events, product) == OfProduct(b.events, product) + es
    ensures forall p: Product | p != product :: Same(p, b, b')
  {
    OfProductExtend(b.events, es, product, product);
    forall p: Product | p != product ensures Same(p, b, b') { OfProductExtend(b.events, es, product, p); }
  }

  /** The events `es` of the product were committed, for the first of the updates. */
  ghost predicate Strung(feed: Feed, at: int, lo: nat, hi: nat, product: Product, b: Batch, b': Batch, u: seq<Head>,
                         es: seq<Event>) {
    && product in b.heads && b'.events == b.events + es
    && b'.heads == b.heads[product := Before(b.heads[product], es, |es|)]
    && TakenAll(feed, at, lo, hi, product, b.heads[product], es, u)
  }

  lemma StrungLonger(feed: Feed, at: int, lo: nat, hi: nat, hi': nat, product: Product, b: Batch, b': Batch,
                     u: seq<Head>, es: seq<Event>)
    requires Strung(feed, at, lo, hi, product, b, b', u, es) && hi <= hi'
    ensures Strung(feed, at, lo, hi', product, b, b', u, es)
  {
    TakenLonger(feed, at, lo, hi, lo, hi', product, b.heads[product], es, u);
  }

  lemma StrungNext(feed: Feed, at: int, lo: nat, mid: nat, hi: nat, product: Product, b: Batch, b1: Batch, b2: Batch,
                   u: seq<Head>, es: seq<Event>, e: Event)
    requires lo <= mid <= hi && Strung(feed, at, lo, mid, product, b, b1, u, es) && |es| < |u|
    requires b2.events == b1.events + [e] && b2.heads == b1.heads[product := e.head]
    requires TakenWithin(feed, at, mid, hi, e, product, b1.heads[product], u[|es|])
    ensures Strung(feed, at, lo, hi, product, b, b2, u, es + [e])
  {
    var previous := b.heads[product];
    TakenLonger(feed, at, lo, mid, lo, hi, product, previous, es, u);
    WithinLonger(feed, at, mid, hi, lo, hi, e, product, Before(previous, es, |es|), u[|es|]);
    TakenNext(feed, at, lo, hi, product, previous, es, u, e);
    assert b.events + es + [e] == b.events + (es + [e]);
    assert b.heads[product := Before(previous, es, |es|)][product := e.head] == b.heads[product := e.head];
  }

  lemma MovesOne(feed: Feed, at: int, lo: nat, hi: nat, product: Product, head: Head, cutoff: Option<int>, full: bool,
                 b: Batch, b': Batch, look: nat, u: seq<Head>, es: seq<Event>)
    requires Strung(feed, at, look + 1, hi, product, b, b', u, es) && lo <= look < hi
    requires Answered(feed, look, product, b.heads[product], head, u)
    requires BelowCutOff(u, |es|, cutoff) && (full ==> CutOff(u, |es|, cutoff))
    ensures OnlyGained(feed, at, lo, hi, product, head, cutoff, full, b, b')
  {
    TakenLonger(feed, at, look + 1, hi, lo, hi, product, b.heads[product], es, u);
    TookProducts(feed, at, lo, hi, product, b.heads[product], es, u);
    OthersSame(b, b', es, product, Before(b.heads[product], es, |es|));
    assert MovedBy(feed, at, lo, hi, product, head, cutoff, b, b', look, u, es);
  }

  lemma BeginsOne(feed: Feed, at: int, look: nat, product: Product, head: Head, cutoff: Option<int>, b: Batch,
                  b': Batch, e: Event)
    requires product !in b.heads && OpenedAt(feed, at, look, e, product, head)
    requires b'.events == b.events + [e] && b'.heads == b.heads[product := e.head]
    ensures OnlyGained(feed, at, look, look + 1, product, head, cutoff, true, b, b')
  {
    OthersSame(b, b', [e], product, e.head);
    assert BegunBy(feed, at, look, look + 1, product, head, b, b', look, e);
  }

  // ----- What it comes to -----

  lemma TakesVersion(feed: Feed, at: int, lo: nat, hi: nat, e: Event, product: Product, previous: Head, update: Head)
    requires TakenWithin(feed, at, lo, hi, e, product, previous, update)
    ensures e.product == product && (e.head.version == update.version || e.gap)
  {
    var look: nat :| lo <= look < hi && TakenAt(feed, at, look, e, product, previous, update);
    assert MakeUpdate(feed.stores(look), product, previous, update).Success?;
  }

  /** The product's newest event is this version, or was added just now and resumes after a gap. */
  ghost predicate Arrived(product: Product, version: Version, b: Batch, b': Batch) {
    var last := LastOf(b'.events, product);
    && last.Some?
    && (last.value.head.version == version
        || (last.value.gap && |OfProduct(b'.events, product)| > |OfProduct(b.events, product)|))
  }

  lemma AnswerEnds(feed: Feed, look: nat, product: Product, previous: Head, head: Head, u: seq<Head>)
    requires Answered(feed, look, product, previous, head, u)
    ensures if u == [] then previous.version == head.version else u[|u| - 1].version == head.version
  {}

  lemma LastTaken(feed: Feed, at: int, lo: nat, hi: nat, product: Product, previous: Head, es: seq<Event>, u: seq<Head>)
    requires TakenAll(feed, at, lo, hi, product, previous, es, u) && |es| == |u| > 0
    ensures es[|es| - 1].head.version == u[|u| - 1].version || es[|es| - 1].gap
  {
    var last := |es| - 1;
    TakesVersion(feed, at, lo, hi, es[last], product, Before(previous, es, last), u[last]);
  }

  lemma ArrivesBy(product: Product, version: Version, b: Batch, b': Batch, es: seq<Event>)
    requires product in b.heads && HeadsExact(b) && OfProduct(b'.events, product) == OfProduct(b.events, product) + es
    requires if es == [] then b.heads[product].version == version
             else es[|es| - 1].head.version == version || es[|es| - 1].gap
    ensures Arrived(product, version, b, b')
  {
    EndsOfProduct(b.events, product);
    EndsOfProduct(b'.events, product);
    if es == [] { assert OfProduct(b'.events, product) == OfProduct(b.events, product); }
  }

  lemma MovedArrives(feed: Feed, at: int, lo: nat, hi: nat, product: Product, head: Head, b: Batch, b': Batch,
                     look: nat, u: seq<Head>, es: seq<Event>)
    requires MovedBy(feed, at, lo, hi, product, head, None, b, b', look, u, es) && CutOff(u, |es|, None)
    requires HeadsExact(b)
    ensures Arrived(product, head.version, b, b')
  {
    AnswerEnds(feed, look, product, b.heads[product], head, u);
    if es != [] { LastTaken(feed, at, lo, hi, product, b.heads[product], es, u); }
    ArrivesBy(product, head.version, b, b', es);
  }

  lemma BegunArrives(feed: Feed, at: int, lo: nat, hi: nat, product: Product, head: Head, b: Batch, b': Batch)
    requires Begun(feed, at, lo, hi, product, head, b, b')
    ensures Arrived(product, head.version, b, b')
  {
    var look, e :| BegunBy(feed, at, lo, hi, product, head, b, b', look, e);
    assert MakeBaseline(feed.stores(look), product, head).Success?;
    EndsOfProduct(b'.events, product);
  }

  lemma GainedArrives(feed: Feed, at: int, lo: nat, hi: nat, product: Product, head: Head, b: Batch, b': Batch)
    requires Gained(feed, at, lo, hi, product, head, None, true, b, b') && HeadsExact(b)
    ensures Arrived(product, head.version, b, b')
  {
    if product in b.heads {
      var look, u, es :| MovedBy(feed, at, lo, hi, product, head, None, b, b', look, u, es) && CutOff(u, |es|, None);
      MovedArrives(feed, at, lo, hi, product, head, b, b', look, u, es);
    } else {
      BegunArrives(feed, at, lo, hi, product, head, b, b');
    }
  }

  /** Every product of the source has reached the head that was read. */
  ghost predicate CaughtUp(heads: map<Product, Head>, b: Batch, b': Batch) {
    forall p | p in heads :: Arrived(p, heads[p].version, b, b')
  }

  lemma ProgressArrives(feed: Feed, at: int, lo: nat, hi: nat, heads: map<Product, Head>, b: Batch, b': Batch)
    requires Progress(feed, at, lo, hi, heads, None, b, b', heads.Keys) && HeadsExact(b)
    ensures CaughtUp(heads, b, b')
  {
    forall p | p in heads ensures Arrived(p, heads[p].version, b, b') {
      assert Stands(feed, at, lo, hi, heads, None, b, b', heads.Keys, p);
      GainedArrives(feed, at, lo, hi, p, heads[p], b, b');
    }
  }

  /** Only the events and the heads matter. */
  lemma ProgressOf(feed: Feed, at: int, lo: nat, hi: nat, heads: map<Product, Head>, cutoff: Option<int>,
                   b: Batch, b': Batch, c: Batch, c': Batch, done: set<Product>)
    requires Progress(feed, at, lo, hi, heads, cutoff, b, b', done)
    requires c.events == b.events && c.heads == b.heads && c'.events == b'.events && c'.heads == b'.heads
    ensures Progress(feed, at, lo, hi, heads, cutoff, c, c', done)
  {
    forall p: Product
      ensures Stands(feed, at, lo, hi, heads, cutoff, c, c', done, p)
    {
      assert Stands(feed, at, lo, hi, heads, cutoff, b, b', done, p);
      if p in done && p in heads { GainedAmong(feed, at, lo, hi, p, heads[p], cutoff, true, c, b, b', c'); }
    }
  }

  lemma PartOf(feed: Feed, at: int, lo: nat, hi: nat, heads: map<Product, Head>, cutoff: Option<int>,
               b: Batch, b': Batch, c: Batch, c': Batch)
    requires PartProgress(feed, at, lo, hi, heads, cutoff, b, b')
    requires c.events == b.events && c.heads == b.heads && c'.events == b'.events && c'.heads == b'.heads
    ensures PartProgress(feed, at, lo, hi, heads, cutoff, c, c')
  {
    forall p: Product
      ensures StandsPartly(feed, at, lo, hi, heads, cutoff, c, c', p)
    {
      assert StandsPartly(feed, at, lo, hi, heads, cutoff, b, b', p);
      if !Same(p, b, b') { GainedAmong(feed, at, lo, hi, p, heads[p], cutoff, false, c, b, b', c'); }
    }
  }

  /** The products of a new day, each opened where the old day left it. */
  ghost predicate Opened(seeds: map<Product, Head>, b: Batch) {
    && b.heads.Keys == seeds.Keys
    && forall p | p in seeds ::
         var first := FirstEvent(b.events, p);
         first.Some? && (first.value.head.version == seeds[p].version || first.value.gap)
  }

  lemma ProgressOpens(feed: Feed, at: int, lo: nat, hi: nat, seeds: map<Product, Head>, b: Batch, b': Batch)
    requires Progress(feed, at, lo, hi, seeds, None, b, b', seeds.Keys) && b.events == [] && b.heads == map[]
    ensures Opened(seeds, b')
  {
    forall p: Product
      ensures p in b'.heads <==> p in seeds
      ensures p in seeds ==> var first := FirstEvent(b'.events, p);
                             first.Some? && (first.value.head.version == seeds[p].version || first.value.gap)
    {
      assert Stands(feed, at, lo, hi, seeds, None, b, b', seeds.Keys, p);
      if p in seeds {
        var look, e :| BegunBy(feed, at, lo, hi, p, seeds[p], b, b', look, e);
        assert MakeBaseline(feed.stores(look), p, seeds[p]).Success?;
        EndsOfProduct(b'.events, p);
      }
    }
  }

  // ----- What an old day may be given that was published after it -----

  /**
   The event was taken at this look, and is dated at or after `start` exactly if its update was
   superseded by then.
   */
  ghost predicate TakenLate(feed: Feed, at: int, look: nat, e: Event, product: Product, previous: Head, update: Head,
                            start: int) {
    && TakenAt(feed, at, look, e, product, previous, update)
    && (e.head.mtime >= start <==> Superseded(feed.stores(look), product, update, start))
  }

  /**
   Every event of a drain is what its source yielded, at some look, for an update published before
   midnight; and it is dated after midnight if and only if that update was superseded by then.
   */
  lemma DrainedLateIff(feed: Feed, at: int, lo: nat, hi: nat, product: Product, head: Head, start: int, b: Batch,
                       b': Batch, look: nat, u: seq<Head>, es: seq<Event>, i: nat)
    requires MovedBy(feed, at, lo, hi, product, head, Some(start), b, b', look, u, es) && i < |es|
    ensures u[i].mtime < start
    ensures exists l: nat :: lo <= l < hi &&
              TakenLate(feed, at, l, es[i], product, Before(b.heads[product], es, i), u[i], start)
  {
    var previous := Before(b.heads[product], es, i);
    assert TakenWithin(feed, at, lo, hi, es[i], product, previous, u[i]);
    var l: nat :| lo <= l < hi && TakenAt(feed, at, l, es[i], product, previous, u[i]);
    LateAt(feed, at, l, es[i], product, previous, u[i], start);
  }

  lemma LateAt(feed: Feed, at: int, look: nat, e: Event, product: Product, previous: Head, update: Head, start: int)
    requires TakenAt(feed, at, look, e, product, previous, update) && update.mtime < start
    ensures TakenLate(feed, at, look, e, product, previous, update, start)
  {
    TakenLateIff(feed.stores(look), product, previous, update, start);
  }
}
