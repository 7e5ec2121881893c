/**
 * The coordinate decoder of the game pages (`calculatePointsFromCoordinates` and
 * `getDartBoardSection`, duplicated verbatim in 501.tsx, 301.tsx and countup.tsx):
 * a radius-band ladder over the distance from the centre, and a 20-entry sector
 * table indexed by an 18-degree angle bucket. The square root and the arc tangent
 * are not modelled: the distance and the angle in degrees are the inputs.
 */
module Board {
  import opened Wrappers
  import Dartsio

  /** The sector table exactly as the source writes it; index 0 is the bucket at 0 degrees (+x axis). */
  const Sections: seq<int> := [6, 13, 4, 18, 1, 20, 5, 12, 9, 14, 11, 8, 16, 7, 19, 3, 17, 2, 15, 10]

  /** `sections[sectionIndex] || 0`: a bucket outside the table reads as 0. */
  function SectionAt(bucket: int): int {
    if 0 <= bucket < |Sections| then Sections[bucket] else 0
  }

  /** The position of a section number in the table, written out independently of it. */
  function BucketOfSection(section: int): int {
    if section == 6 then 0 else if section == 13 then 1 else if section == 4 then 2
    else if section == 18 then 3 else if section == 1 then 4 else if section == 20 then 5
    else if section == 5 then 6 else if section == 12 then 7 else if section == 9 then 8
    else if section == 14 then 9 else if section == 11 then 10 else if section == 8 then 11
    else if section == 16 then 12 else if section == 7 then 13 else if section == 19 then 14
    else if section == 3 then 15 else if section == 17 then 16 else if section == 2 then 17
    else if section == 15 then 18 else if section == 10 then 19 else -1
  }

  /** Truncation toward zero. */
  function Trunc(x: real): int {
    if x >= 0.0 then x.Floor else -((-x).Floor)
  }

  /** JavaScript `%` on numbers: the remainder has the sign of the dividend. */
  function JsRem(n: real, d: real): real
    requires d > 0.0
  {
    n - d * (Trunc(n / d) as real)
  }

  /** `(angle + 360 + 9) % 360` */
  function NormalisedAngle(angle: real): real {
    JsRem(angle + 360.0 + 9.0, 360.0)
  }

  /** `Math.floor(normalizedAngle / 18)` */
  function Bucket(normalised: real): int {
    (normalised / 18.0).Floor
  }

  /** `getDartBoardSection`, from the angle in degrees that `atan2` gives. */
  function SectionFromAngle(angle: real): int {
    SectionAt(Bucket(NormalisedAngle(angle)))
  }

  /** The radius band ladder of `calculatePointsFromCoordinates`; every comparison is strict. */
  function PointsFromDistance(distance: real, section: int): int {
    if distance < 6.35 then 50
    else if distance < 15.9 then 25
    else if distance < 107.0 then section
    else if distance < 115.0 then section * 3
    else if distance < 162.0 then section
    else if distance < 170.0 then section * 2
    else 0
  }

  /** `calculatePointsFromCoordinates`, with distance and angle given. */
  function CoordinatePoints(distance: real, angle: real): int {
    PointsFromDistance(distance, SectionFromAngle(angle))
  }

  /** The hit record the ladder stands for: which ring, hence which device code. */
  function Classify(distance: real, section: nat): Dartsio.DartHit {
    if distance < 6.35 then Dartsio.InnerBull
    else if distance < 15.9 then Dartsio.OuterBull
    else if distance < 107.0 then Dartsio.SectorHit(section, 1)
    else if distance < 115.0 then Dartsio.SectorHit(section, 3)
    else if distance < 162.0 then Dartsio.SectorHit(section, 1)
    else if distance < 170.0 then Dartsio.SectorHit(section, 2)
    else Dartsio.MissHit
  }

  // ---------------------------------------------------------------------------
  // The sector table
  // ---------------------------------------------------------------------------

  lemma TableEntry(b: int)
    requires 0 <= b < 20
    ensures 1 <= Sections[b] <= 20 && BucketOfSection(Sections[b]) == b
  {
    if b == 0 {} else if b == 1 {} else if b == 2 {} else if b == 3 {} else if b == 4 {}
    else if b == 5 {} else if b == 6 {} else if b == 7 {} else if b == 8 {} else if b == 9 {}
    else if b == 10 {} else if b == 11 {} else if b == 12 {} else if b == 13 {} else if b == 14 {}
    else if b == 15 {} else if b == 16 {} else if b == 17 {} else if b == 18 {} else {}
  }

  lemma TableSection(s: int)
    requires 1 <= s <= 20
    ensures 0 <= BucketOfSection(s) < 20 && Sections[BucketOfSection(s)] == s
  {
    if s == 1 {} else if s == 2 {} else if s == 3 {} else if s == 4 {} else if s == 5 {}
    else if s == 6 {} else if s == 7 {} else if s == 8 {} else if s == 9 {} else if s == 10 {}
    else if s == 11 {} else if s == 12 {} else if s == 13 {} else if s == 14 {} else if s == 15 {}
    else if s == 16 {} else if s == 17 {} else if s == 18 {} else if s == 19 {} else {}
  }

  /**
   * The table is a permutation of 1..20: every entry is a section number, every
   * section number occurs, and the position function inverts the table both ways.
   */
  lemma SectorTableIsPermutation()
    ensures |Sections| == 20
    ensures forall b :: 0 <= b < 20 ==> 1 <= Sections[b] <= 20 && BucketOfSection(Sections[b]) == b
    ensures forall s :: 1 <= s <= 20 ==> 0 <= BucketOfSection(s) < 20 && Sections[BucketOfSection(s)] == s
  {
    forall b | 0 <= b < 20
      ensures 1 <= Sections[b] <= 20 && BucketOfSection(Sections[b]) == b
    {
      TableEntry(b);
    }
    forall s | 1 <= s <= 20
      ensures 0 <= BucketOfSection(s) < 20 && Sections[BucketOfSection(s)] == s
    {
      TableSection(s);
    }
  }

  // ---------------------------------------------------------------------------
  // The angle buckets
  // ---------------------------------------------------------------------------

  /** For every angle `atan2` can give (indeed every angle from -369 degrees up) the normalised angle lies in [0, 360). */
  lemma NormalisedAngleRange(angle: real)
    requires angle >= -369.0
    ensures 0.0 <= NormalisedAngle(angle) < 360.0
  {
    var n := angle + 369.0;
    assert n >= 0.0;
    var q := (n / 360.0).Floor;
    assert q as real <= n / 360.0 < q as real + 1.0;
    assert Trunc(n / 360.0) == q;
  }

  /** Bucket b covers exactly the normalised angles [18b, 18b + 18). */
  lemma BucketSpan(a: real, b: int)
    ensures Bucket(a) == b <==> 18.0 * (b as real) <= a < 18.0 * (b as real) + 18.0
  {
    var f := (a / 18.0).Floor;
    assert f as real <= a / 18.0 < f as real + 1.0;
    if 18.0 * (b as real) <= a < 18.0 * (b as real) + 18.0 {
      assert b as real <= a / 18.0 < b as real + 1.0;
    }
  }

  /** A normalised angle always falls in one of the 20 buckets, so the `|| 0` fallback never fires. */
  lemma SectionFromAngleInRange(angle: real)
    requires angle >= -369.0
    ensures 0 <= Bucket(NormalisedAngle(angle)) < 20
    ensures 1 <= SectionFromAngle(angle) <= 20
  {
    var a := NormalisedAngle(angle);
    NormalisedAngleRange(angle);
    var f := (a / 18.0).Floor;
    assert f as real <= a / 18.0 < f as real + 1.0;
    TableEntry(Bucket(a));
  }

  lemma FloorShift(x: real, k: int)
    ensures (x + k as real).Floor == x.Floor + k
  {
    var f := x.Floor;
    assert f as real <= x < f as real + 1.0;
    var g := (x + k as real).Floor;
    assert g as real <= x + k as real < g as real + 1.0;
  }

  /** The sector of an angle does not change when whole turns are added. */
  lemma SectionPeriodic(angle: real, k: nat)
    requires angle >= -369.0
    ensures SectionFromAngle(angle + 360.0 * (k as real)) == SectionFromAngle(angle)
  {
    var n := angle + 369.0;
    var m := angle + 360.0 * (k as real) + 369.0;
    assert m / 360.0 == n / 360.0 + k as real;
    FloorShift(n / 360.0, k);
    assert Trunc(m / 360.0) == Trunc(n / 360.0) + k;
    assert NormalisedAngle(angle + 360.0 * (k as real)) == NormalisedAngle(angle);
  }

  // ---------------------------------------------------------------------------
  // The radius bands
  // ---------------------------------------------------------------------------

  /** The ladder scores exactly what its ring's hit record scores. */
  lemma ClassifyScores(distance: real, section: nat)
    requires 1 <= section <= 20
    ensures Dartsio.ValidHit(Classify(distance, section))
    ensures Classify(distance, section).points == PointsFromDistance(distance, section)
  {
    Dartsio.SectorHitFacts(section, 1);
    Dartsio.SectorHitFacts(section, 2);
    Dartsio.SectorHitFacts(section, 3);
  }

  /**
   * The two decoders agree: every coordinate outcome is the outcome of a device
   * code, namely the canonical code of the ring and sector the coordinate lies in.
   */
  lemma CoordinateAgreesWithCode(distance: real, angle: real)
    requires angle >= -369.0
    ensures var h := Classify(distance, SectionFromAngle(angle));
      Dartsio.ValidHit(h) && Dartsio.Parse(Dartsio.Encode(h)) == Some(h)
      && h.points == CoordinatePoints(distance, angle)
  {
    SectionFromAngleInRange(angle);
    var s := SectionFromAngle(angle);
    ClassifyScores(distance, s);
    Dartsio.EncodeRoundTrip(Classify(distance, s));
  }

  /** Coordinate scores are between 0 and 60, and 0 from radius 170 outwards. */
  lemma CoordinatePointsBounds(distance: real, angle: real)
    requires angle >= -369.0
    ensures 0 <= CoordinatePoints(distance, angle) <= 60
    ensures distance >= 170.0 ==> CoordinatePoints(distance, angle) == 0
    ensures distance < 170.0 ==> CoordinatePoints(distance, angle) > 0
  {
    SectionFromAngleInRange(angle);
  }
}
