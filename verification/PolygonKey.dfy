/**
 The canonical polygon form of tools/audit_tfr_attribution.py: the least rotation of a ring or
 of its reversal, used to compare published and source geometry exactly.
 */
module PolygonKey {

  /** A vertex; coordinates are exact here, as the comparison is equality of parsed numbers. */
  datatype Point = Point(lat: real, lon: real)

  type Ring = seq<Point>

  // ----- Python's ordering of tuples -----

  predicate PointLess(a: Point, b: Point) {
    a.lat < b.lat || (a.lat == b.lat && a.lon < b.lon)
  }

  predicate Leq(a: Ring, b: Ring) {
    if a == [] then true
    else if b == [] then false
    else if a[0] == b[0] then Leq(a[1..], b[1..])
    else PointLess(a[0], b[0])
  }

  lemma {:induction false} LeqReflexive(a: Ring)
    ensures Leq(a, a)
  {
    if a != [] { LeqReflexive(a[1..]); }
  }

  lemma {:induction false} LeqAntisymmetric(a: Ring, b: Ring)
    requires Leq(a, b) && Leq(b, a)
    ensures a == b
  {
    if a != [] {
      LeqAntisymmetric(a[1..], b[1..]);
      assert a == [a[0]] + a[1..] && b == [b[0]] + b[1..];
    }
  }

  lemma {:induction false} LeqTotal(a: Ring, b: Ring)
    ensures Leq(a, b) || Leq(b, a)
  {
    if a != [] && b != [] { LeqTotal(a[1..], b[1..]); }
  }

  lemma {:induction false} LeqTransitive(a: Ring, b: Ring, c: Ring)
    requires Leq(a, b) && Leq(b, c)
    ensures Leq(a, c)
  {
    if a != [] && a[0] == b[0] == c[0] { LeqTransitive(a[1..], b[1..], c[1..]); }
  }

  // ----- Rotations and reversal -----

  function Rotate(p: Ring, i: nat): Ring
    requires i <= |p|
  {
    p[i..] + p[..i]
  }

  function Reverse(p: Ring): (r: Ring)
    ensures |r| == |p| && forall k | 0 <= k < |p| :: r[k] == p[|p| - 1 - k]
  {
    seq(|p|, k requires 0 <= k < |p| => p[|p| - 1 - k])
  }

  lemma RotateRotate(p: Ring, i: nat, j: nat)
    requires i < |p| && j < |p|
    ensures Rotate(Rotate(p, i), j) == Rotate(p, if i + j < |p| then i + j else i + j - |p|)
  {
    if i + j < |p| {
      assert Rotate(p, i)[j..] == p[i + j..] + p[..i];
      assert Rotate(p, i)[..j] == p[i..i + j];
    } else {
      assert Rotate(p, i)[j..] == p[i + j - |p|..i];
    }
  }

  lemma ReverseRotate(p: Ring, i: nat)
    requires i < |p|
    ensures Reverse(Rotate(p, i)) == Rotate(Reverse(p), if i == 0 then 0 else |p| - i)
  {}

  lemma ReverseReverse(p: Ring)
    ensures Reverse(Reverse(p)) == p
  {}

  /** Two open rings trace the same polygon: one is a rotation or a reversed rotation of the other. */
  ghost predicate SameShape(p: Ring, q: Ring) {
    |p| == |q| && (p == [] || exists i | 0 <= i < |p| :: q == Rotate(p, i) || q == Rotate(Reverse(p), i))
  }

  lemma ShapeSymmetric(p: Ring, q: Ring)
    requires SameShape(p, q)
    ensures SameShape(q, p)
  {
    if p != [] {
      var i :| 0 <= i < |p| && (q == Rotate(p, i) || q == Rotate(Reverse(p), i));
      var back := if i == 0 then 0 else |p| - i;
      if q == Rotate(p, i) {
        RotateRotate(p, i, back);
        assert Rotate(q, back) == Rotate(p, 0) == p;
      } else {
        RotateRotate(Reverse(p), i, back);
        assert Rotate(q, back) == Rotate(Reverse(p), 0) == Reverse(p);
        ReverseRotate(q, back);
        ReverseReverse(p);
      }
    }
  }

  lemma ShapeTransitive(p: Ring, q: Ring, r: Ring)
    requires SameShape(p, q) && SameShape(q, r)
    ensures SameShape(p, r)
  {
    if p != [] {
      var i :| 0 <= i < |p| && (q == Rotate(p, i) || q == Rotate(Reverse(p), i));
      if q == Rotate(p, i) {
        RotatedShape(p, i, r);
      } else {
        RotatedShape(Reverse(p), i, r);
        ReverseReverse(p);
      }
    }
  }

  /** What has the shape of a rotated ring is a rotation of that ring or of its reversal. */
  lemma RotatedShape(p: Ring, i: nat, r: Ring)
    requires i < |p| && SameShape(Rotate(p, i), r)
    ensures exists k | 0 <= k < |p| :: r == Rotate(p, k) || r == Rotate(Reverse(p), k)
  {
    var q := Rotate(p, i);
    var j :| 0 <= j < |p| && (r == Rotate(q, j) || r == Rotate(Reverse(q), j));
    if r == Rotate(q, j) {
      RotateRotate(p, i, j);
    } else {
      ReverseRotate(p, i);
      RotateRotate(Reverse(p), if i == 0 then 0 else |p| - i, j);
    }
  }

  // ----- The key -----

  /** Drop one closing duplicate. */
  function Open(points: Ring): Ring {
    if |points| > 1 && points[0] == points[|points| - 1] then points[..|points| - 1] else points
  }

  /** Every rotation of the ring and of its reversal, in the order they are generated. */
  function Candidates(p: Ring): seq<Ring> {
    seq(|p|, i requires 0 <= i < |p| => Rotate(p, i))
    + seq(|p|, i requires 0 <= i < |p| => Rotate(Reverse(p), i))
  }

  function Least(rings: seq<Ring>): (least: Ring)
    requires rings != []
    ensures least in rings && forall r | r in rings :: Leq(least, r)
  {
    LeqReflexive(rings[0]);
    if |rings| == 1 then rings[0]
    else
      var rest := Least(rings[1..]);
      LeqTotal(rings[0], rest);
      assert forall r | r in rings :: r == rings[0] || r in rings[1..];
      if Leq(rings[0], rest) then
        assert forall r | r in rings[1..] :: Leq(rings[0], r) by {
          forall r | r in rings[1..] ensures Leq(rings[0], r) { LeqTransitive(rings[0], rest, r); }
        }
        rings[0]
      else rest
  }

  function Key(points: Ring): Ring {
    var p := Open(points);
    if p == [] then [] else Least(Candidates(p))
  }

  lemma CandidatesAreShapes(p: Ring, q: Ring)
    requires p != []
    ensures q in Candidates(p) <==> SameShape(p, q)
  {
    var c := Candidates(p);
    if SameShape(p, q) {
      var i :| 0 <= i < |p| && (q == Rotate(p, i) || q == Rotate(Reverse(p), i));
      assert c[i] == Rotate(p, i) && c[|p| + i] == Rotate(Reverse(p), i);
    }
    if q in c {
      var k :| 0 <= k < |c| && c[k] == q;
      var i := if k < |p| then k else k - |p|;
      assert q == Rotate(p, i) || q == Rotate(Reverse(p), i);
    }
  }

  lemma KeyIsShape(points: Ring)
    ensures SameShape(Open(points), Key(points))
  {
    if Open(points) != [] { CandidatesAreShapes(Open(points), Key(points)); }
  }

  /** Two vertex lists get the same key exactly when their open rings trace the same polygon. */
  lemma KeyIdentifiesShape(a: Ring, b: Ring)
    ensures Key(a) == Key(b) <==> SameShape(Open(a), Open(b))
  {
    var p, q := Open(a), Open(b);
    KeyIsShape(a);
    KeyIsShape(b);
    if Key(a) == Key(b) {
      ShapeSymmetric(q, Key(b));
      ShapeTransitive(p, Key(a), q);
    }
    if SameShape(p, q) && p != [] {
      ShapeSymmetric(p, q);
      ShapeTransitive(q, p, Key(a));
      ShapeTransitive(p, q, Key(b));
      CandidatesAreShapes(q, Key(a));
      CandidatesAreShapes(p, Key(b));
      LeqAntisymmetric(Key(a), Key(b));
    }
  }

  /** The closing repetition of the first vertex does not count, but only one such repetition. */
  lemma ClosingIsIgnored(ring: Ring)
    requires ring != []
    ensures Key(ring + [ring[0]]) == Key(ring) <==> |ring| == 1 || ring[0] != ring[|ring| - 1]
  {
    var closed := ring + [ring[0]];
    assert closed[..|ring|] == ring && Open(closed) == ring;
    KeyIsShape(closed);
    KeyIsShape(ring);
  }
}
