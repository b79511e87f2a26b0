/** The exact-area comparison of tools/audit_tfr_attribution.py: published areas against source XML. */
module TfrAudit {
  import opened PolygonKey

  /** A vertical limit as (value text, unit). */
  type Limit = (string, string)

  /** A limit as the source XML spells it: `valDistVer`, `uomDistVer`, `codeDistVer`. */
  datatype XmlLimit = XmlLimit(value: string, unit: string, datum: string)

  datatype XmlArea = XmlArea(polygon: Ring, lower: XmlLimit, upper: XmlLimit)
  datatype PublishedArea = PublishedArea(polygon: Ring, lower: Limit, upper: Limit)
  datatype AreaKey = AreaKey(polygon: Ring, lower: Limit, upper: Limit)

  /** One detail record: the identity check's outcome, its drawable XML areas, its published areas. */
  datatype Notice = Notice(id: string, identified: bool, drawable: seq<XmlArea>, published: seq<PublishedArea>)
  datatype Mismatch = Mismatch(id: string, missing: nat, unexpected: nat)

  function NormalLimit(l: XmlLimit): Limit {
    if l.value == "0" && l.datum == "HEI" then ("SFC", "")
    else if l.unit == "FT" && l.datum == "ALT" then (l.value, "FT MSL")
    else if l.unit == "FT" && l.datum == "HEI" then (l.value, "FT AGL")
    else (l.value, l.unit)
  }

  function XmlKey(a: XmlArea): AreaKey {
    AreaKey(Key(a.polygon), NormalLimit(a.lower), NormalLimit(a.upper))
  }

  function PublishedKey(a: PublishedArea): AreaKey {
    AreaKey(Key(a.polygon), a.lower, a.upper)
  }

  function XmlKeys(areas: seq<XmlArea>): seq<AreaKey> {
    seq(|areas|, i requires 0 <= i < |areas| => XmlKey(areas[i]))
  }

  function PublishedKeys(areas: seq<PublishedArea>): seq<AreaKey> {
    seq(|areas|, i requires 0 <= i < |areas| => PublishedKey(areas[i]))
  }

  /**
   A published limit says what the XML fields do: the surface, or their value in its own unit, feet
   being qualified.
   */
  ghost predicate SameLimit(x: XmlLimit, p: Limit) {
    if x.datum == "HEI" && x.value == "0" then p == ("SFC", "")
    else
      && p.0 == x.value
      && (p.1 == x.unit || (x.unit == "FT" && p.1 in {"FT MSL", "FT AGL"}))
      && (x.unit == "FT" ==> (p.1 == "FT MSL" <==> x.datum == "ALT") && (p.1 == "FT AGL" <==> x.datum == "HEI"))
  }

  /** The same drawn area: the same polygon up to rotation and reversal, and the same limits. */
  ghost predicate SameArea(x: XmlArea, p: PublishedArea) {
    SameShape(Open(x.polygon), Open(p.polygon)) && SameLimit(x.lower, p.lower) && SameLimit(x.upper, p.upper)
  }

  ghost predicate Permutation(f: seq<nat>) {
    && (forall i | 0 <= i < |f| :: f[i] < |f|)
    && (forall i, j | 0 <= i < j < |f| :: f[i] != f[j])
  }

  /** The XML areas and the published areas can be paired one-to-one. */
  ghost predicate Pairable(xml: seq<XmlArea>, published: seq<PublishedArea>) {
    exists f: seq<nat> :: Pairs(f, xml, published)
  }

  ghost predicate Pairs(f: seq<nat>, xml: seq<XmlArea>, published: seq<PublishedArea>) {
    |f| == |xml| == |published| && Permutation(f) && forall i | 0 <= i < |f| :: SameArea(xml[i], published[f[i]])
  }

  // ----- Equal multisets are exactly the permutations -----

  ghost predicate Matches<T(!new)>(f: seq<nat>, a: seq<T>, b: seq<T>) {
    |f| == |a| == |b| && Permutation(f) && forall i | 0 <= i < |f| :: a[i] == b[f[i]]
  }

  /** Put the last element in place of element `j` and drop the last position. */
  function Without<T>(s: seq<T>, j: nat): (r: seq<T>)
    requires j < |s|
    ensures |r| == |s| - 1
    ensures multiset(r) + multiset{s[j]} == multiset(s)
  {
    var last := |s| - 1;
    assert s == s[..last] + [s[last]];
    if j == last then s[..last]
    else
      assert s[..last] == s[..j] + [s[j]] + s[j + 1..last];
      assert s[..last][j := s[last]] == s[..j] + [s[last]] + s[j + 1..last];
      s[..last][j := s[last]]
  }

  lemma {:induction false} PermutationGivesMultiset<T(!new)>(f: seq<nat>, a: seq<T>, b: seq<T>)
    requires Matches(f, a, b)
    ensures multiset(a) == multiset(b)
    decreases |a|
  {
    if a != [] {
      var last := |a| - 1;
      var j := f[last];
      var f' := seq(last, i requires 0 <= i < last => if f[i] == last then j else f[i]);
      PermutationGivesMultiset(f', a[..last], Without(b, j));
      assert a == a[..last] + [a[last]];
    }
  }

  lemma {:induction false} MultisetGivesPermutation<T(!new)>(a: seq<T>, b: seq<T>) returns (f: seq<nat>)
    requires multiset(a) == multiset(b)
    ensures Matches(f, a, b)
    decreases |a|
  {
    assert |multiset(a)| == |a| && |multiset(b)| == |b|;
    if a == [] {
      f := [];
    } else {
      var last := |a| - 1;
      assert a[last] in multiset(b);
      var j :| 0 <= j < |b| && b[j] == a[last];
      RemoveBoth(a, b, j);
      var f' := MultisetGivesPermutation(a[..last], Without(b, j));
      f := ExtendMatch(f', a, b, j);
    }
  }

  lemma RemoveBoth<T>(a: seq<T>, b: seq<T>, j: nat)
    requires multiset(a) == multiset(b) && a != [] && j < |b| && b[j] == a[|a| - 1]
    ensures multiset(a[..|a| - 1]) == multiset(Without(b, j))
  {
    var last := |a| - 1;
    assert a == a[..last] + [a[last]];
    var x, y, one := multiset(a[..last]), multiset(Without(b, j)), multiset{a[last]};
    assert x + one == y + one;
    assert x == (x + one) - one && y == (y + one) - one;
  }

  lemma ExtendMatch<T(!new)>(f': seq<nat>, a: seq<T>, b: seq<T>, j: nat) returns (f: seq<nat>)
    requires |a| == |b| > 0 && j < |b| && b[j] == a[|a| - 1]
    requires Matches(f', a[..|a| - 1], Without(b, j))
    ensures Matches(f, a, b)
  {
    var last := |a| - 1;
    f := seq(last, i requires 0 <= i < last => if f'[i] == j then last else f'[i]) + [j];
  }

  lemma AreasByKey(x: XmlArea, p: PublishedArea)
    ensures XmlKey(x) == PublishedKey(p) <==> SameArea(x, p)
  {
    KeyIdentifiesShape(x.polygon, p.polygon);
  }

  /** The counters agree exactly when the areas can be paired one-to-one. */
  lemma CountersDecidePairing(xml: seq<XmlArea>, published: seq<PublishedArea>)
    ensures multiset(XmlKeys(xml)) == multiset(PublishedKeys(published)) <==> Pairable(xml, published)
  {
    var a, b := XmlKeys(xml), PublishedKeys(published);
    forall x, p { AreasByKey(x, p); }
    if multiset(a) == multiset(b) {
      var f := MultisetGivesPermutation(a, b);
      assert forall i | 0 <= i < |f| :: a[i] == XmlKey(xml[i]) && b[f[i]] == PublishedKey(published[f[i]]);
      assert Pairs(f, xml, published);
    }
    if Pairable(xml, published) {
      var f :| Pairs(f, xml, published);
      assert forall i | 0 <= i < |f| :: a[i] == XmlKey(xml[i]) && b[f[i]] == PublishedKey(published[f[i]]);
      PermutationGivesMultiset(f, a, b);
    }
  }

  // ----- The audit loop -----

  ghost predicate Reported(n: Notice) {
    n.identified && n.published != [] && !Pairable(n.drawable, n.published)
  }

  /** One entry for each notice whose areas cannot be paired, in input order, with both excesses. */
  ghost function ExpectedReport(notices: seq<Notice>): seq<Mismatch> {
    if notices == [] then []
    else
      var n := notices[|notices| - 1];
      var xml, published := multiset(XmlKeys(n.drawable)), multiset(PublishedKeys(n.published));
      ExpectedReport(notices[..|notices| - 1])
      + (if Reported(n) then [Mismatch(n.id, |xml - published|, |published - xml|)] else [])
  }

  ghost function AreasCompared(notices: seq<Notice>): nat {
    if notices == [] then 0
    else
      var n := notices[|notices| - 1];
      AreasCompared(notices[..|notices| - 1]) + (if n.identified && n.published != [] then |n.drawable| else 0)
  }

  method CountXml(areas: seq<XmlArea>) returns (counter: multiset<AreaKey>)
    ensures counter == multiset(XmlKeys(areas))
  {
    counter := multiset{};
    for i := 0 to |areas|
      invariant counter == multiset(XmlKeys(areas)[..i])
    {
      counter := counter + multiset{XmlKey(areas[i])};
      assert XmlKeys(areas)[..i + 1] == XmlKeys(areas)[..i] + [XmlKey(areas[i])];
    }
    assert XmlKeys(areas)[..|areas|] == XmlKeys(areas);
  }

  /** The `require_xml_areas` part of `audit`: a notice is reported exactly when its areas cannot be paired. */
  method AuditExactAreas(notices: seq<Notice>) returns (checked: nat, report: seq<Mismatch>)
    ensures report == ExpectedReport(notices)
    ensures checked == AreasCompared(notices)
  {
    checked, report := 0, [];
    for i := 0 to |notices|
      invariant report == ExpectedReport(notices[..i])
      invariant checked == AreasCompared(notices[..i])
    {
      var n := notices[i];
      assert notices[..i + 1][..i] == notices[..i];
      if !n.identified || n.published == [] {
        continue;
      }
      var expected := CountXml(n.drawable);
      var actual := multiset(PublishedKeys(n.published));
      CountersDecidePairing(n.drawable, n.published);
      checked := checked + |expected|;
      if expected != actual {
        report := report + [Mismatch(n.id, |expected - actual|, |actual - expected|)];
      }
    }
    assert notices[..|notices|] == notices;
  }

  /**
   Both excesses leave the same number of areas pairable, and a report is never empty: a notice
   that cannot be paired misses an area or has one too many.
   */
  lemma ReportedExcess(n: Notice)
    ensures var xml, published := multiset(XmlKeys(n.drawable)), multiset(PublishedKeys(n.published));
            && |n.drawable| - |xml - published| == |n.published| - |published - xml|
            && (|xml - published| + |published - xml| > 0 <==> !Pairable(n.drawable, n.published))
  {
    var a, b := multiset(XmlKeys(n.drawable)), multiset(PublishedKeys(n.published));
    CountersDecidePairing(n.drawable, n.published);
    assert a == (a - b) + (a * b);
    assert b == (b - a) + (b * a);
    assert a * b == b * a;
    if |a - b| == 0 && |b - a| == 0 { assert a == b; }
  }
}
