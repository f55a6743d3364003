/** `VisionService`: the mock face detector and the never-failing `detectFaces`
    wrapper around it. Each `Math.random()` is a real input in [0, 1): the
    face-count draw, and per face the size, stretch, position, confidence and
    landmark-jitter draws, in the order the service makes them. */
module Vision {
  import opened Wrappers
  import opened Faces

  const DefaultWidth := 800
  const DefaultHeight := 600
  const ErrorProcessingTime := 100
  const Margin := 10.0

  /** A value `Math.random()` can return. */
  predicate Unit(r: real) { 0.0 <= r < 1.0 }

  /** The face-count thresholds 0.2, 0.5, 0.8 and 0.95 of the uniform draw. */
  const Thresholds: seq<real> := [0.0, 0.2, 0.5, 0.8, 0.95, 1.0]

  function FaceCountFor(rand: real): (n: nat)
    requires Unit(rand)
    ensures n <= 4
  {
    if rand < 0.2 then 0
    else if rand < 0.5 then 1
    else if rand < 0.8 then 2
    else if rand < 0.95 then 3
    else 4
  }

  /** Each face count owns one contiguous interval of draws: 0.2, 0.3, 0.3, 0.15
      and 0.05 wide. */
  lemma FaceCountBuckets(rand: real, k: nat)
    requires Unit(rand) && k <= 4
    ensures FaceCountFor(rand) == k <==> Thresholds[k] <= rand < Thresholds[k + 1]
  {
  }

  /** `Math.round`: the nearest integer, halves rounding up. */
  function Round(v: real): (n: int)
    ensures v - 0.5 < n as real <= v + 0.5
  {
    (v + 0.5).Floor
  }

  lemma RoundMonotone(a: real, b: real)
    requires a <= b
    ensures Round(a) <= Round(b)
  {
  }

  function RMin(a: real, b: real): real { if a <= b then a else b }
  function RMax(a: real, b: real): real { if a >= b then a else b }

  /** The two jitter draws of one landmark, `(Math.random() - 0.5)` of the
      variation along each axis. */
  datatype Jitter = Jitter(dx: real, dy: real)

  /** The random inputs of one loop iteration of `mockFaceDetection`, in call
      order: face width, height stretch, x, y, the random part of the base
      confidence, and the jitter of the four landmarks. */
  datatype FaceDraw = FaceDraw(size: real, stretch: real, px: real, py: real, base: real,
                               leftEye: Jitter, rightEye: Jitter, nose: Jitter, mouth: Jitter)

  predicate JitterInRange(j: Jitter) { Unit(j.dx) && Unit(j.dy) }

  predicate DrawInRange(d: FaceDraw) {
    Unit(d.size) && Unit(d.stretch) && Unit(d.px) && Unit(d.py) && Unit(d.base)
    && JitterInRange(d.leftEye) && JitterInRange(d.rightEye) && JitterInRange(d.nose) && JitterInRange(d.mouth)
  }

  /** The smallest face width: 80 pixels or a tenth of the smaller side,
      whichever is less (backend/services/visionService.js:124). */
  function MinFaceSize(w: int, h: int): real { RMin(80.0, RMin(w as real * 0.1, h as real * 0.1)) }

  /** The largest face width: 200 pixels or three tenths of the smaller side,
      whichever is less (backend/services/visionService.js:125). */
  function MaxFaceSize(w: int, h: int): real { RMin(200.0, RMin(w as real * 0.3, h as real * 0.3)) }

  /** A draw in [0, 1) times a non-negative amount lies between 0 and that
      amount. */
  lemma ScaleWithin(r: real, a: real)
    requires Unit(r) && a >= 0.0
    ensures 0.0 <= r * a <= a
  {
    assert a - r * a == (1.0 - r) * a;
  }

  /** `lo + r * (hi - lo)`: the draw `r` spread over [lo, hi]. The source
      writes it `lo + Math.random() * width` with the width worked out. */
  function Between(lo: real, hi: real, r: real): (v: real)
    ensures Unit(r) && lo <= hi ==> lo <= v <= hi
  {
    var span := hi - lo;
    if Unit(r) && span >= 0.0 then ScaleWithin(r, span); lo + r * span else lo + r * span
  }

  /** The face height: the width scaled by the stretch factor. */
  function Stretched(a: real, k: real): (v: real)
    ensures a >= 0.0 && 1.2 <= k <= 1.5 ==> 1.2 * a <= v <= 1.5 * a
  {
    if a >= 0.0 && 1.2 <= k <= 1.5 then MulBetween(a, k, 1.2, 1.5); a * k else a * k
  }

  /** Scaling a non-negative amount by a factor between two bounds lands
      between the amount scaled by each bound. */
  lemma MulBetween(a: real, k: real, lo: real, hi: real)
    requires a >= 0.0 && lo <= k <= hi
    ensures a * lo <= a * k <= a * hi
  {
    assert a * k - a * lo == a * (k - lo);
    assert a * hi - a * k == a * (hi - k);
  }

  /** The bonus a larger face adds to its confidence: a tenth of its width's
      share of the largest face size (backend/services/visionService.js:135).
      */
  function SizeBonus(faceWidth: real, maxSize: real): (v: real)
    requires maxSize > 0.0
    ensures faceWidth >= 0.0 ==> v >= 0.0
  {
    var q := faceWidth / maxSize;
    assert q * maxSize == faceWidth;
    q * 0.1
  }

  /** `center + (Math.random() - 0.5) * variation`: at most half the
      variation away from the center. */
  function Jittered(center: real, variation: real, r: real): (v: real)
    ensures Unit(r) && variation >= 0.0 ==> center - variation / 2.0 <= v <= center + variation / 2.0
  {
    if Unit(r) && variation >= 0.0 then ScaleWithin(r, variation); center + (r - 0.5) * variation
    else center + (r - 0.5) * variation
  }

  /** The unrounded face of one iteration: its size, position and capped
      confidence, before the box is clamped and rounded. */
  datatype Geometry = Geometry(width: real, height: real, x: real, y: real, confidence: real)

  /** One iteration's arithmetic: `faceWidth` between the two size limits,
      `faceHeight = faceWidth * (1.2 + r * 0.3)`, `x = margin + r * (imageWidth
      - faceWidth - 2 * margin)` (and `y` alike), and the confidence `0.7 + r *
      0.15` plus the size bonus, capped at 0.95. */
  function FaceGeometry(d: FaceDraw, w: int, h: int): Geometry
    requires w > 0 && h > 0
  {
    var minSize, maxSize := MinFaceSize(w, h), MaxFaceSize(w, h);
    var faceWidth := Between(minSize, maxSize, d.size);
    var faceHeight := Stretched(faceWidth, Between(1.2, 1.5, d.stretch));
    var x := Between(Margin, w as real - faceWidth - Margin, d.px);
    var y := Between(Margin, h as real - faceHeight - Margin, d.py);
    Geometry(faceWidth, faceHeight, x, y, RMin(0.95, Between(0.7, 0.85, d.base) + SizeBonus(faceWidth, maxSize)))
  }

  /** One landmark around its center, each coordinate jittered by its
      variation and rounded. */
  function LandmarkAt(kind: string, cx: real, cy: real, xVar: real, yVar: real, j: Jitter): Landmark {
    Landmark(kind, Round(Jittered(cx, xVar, j.dx)), Round(Jittered(cy, yVar, j.dy)))
  }

  /** `generateMockLandmarks(x, y, faceWidth, faceHeight)`: the eyes, nose and
      mouth at fixed fractions of the unclamped box, in push order, with a
      variation of 5% of the box. */
  function MockLandmarks(g: Geometry, d: FaceDraw): seq<Landmark> {
    var xVar, yVar := g.width * 0.05, g.height * 0.05;
    [ LandmarkAt("leftEye", g.x + g.width * 0.3, g.y + g.height * 0.35, xVar, yVar, d.leftEye),
      LandmarkAt("rightEye", g.x + g.width * 0.7, g.y + g.height * 0.35, xVar, yVar, d.rightEye),
      LandmarkAt("nose", g.x + g.width * 0.5, g.y + g.height * 0.55, xVar, yVar, d.nose),
      LandmarkAt("mouth", g.x + g.width * 0.5, g.y + g.height * 0.75, xVar, yVar, d.mouth) ]
  }

  function Kinds(ls: seq<Landmark>): seq<string> {
    seq(|ls|, i requires 0 <= i < |ls| => ls[i].kind)
  }

  lemma LandmarkShape(g: Geometry, d: FaceDraw)
    ensures Kinds(MockLandmarks(g, d)) == ["leftEye", "rightEye", "nose", "mouth"]
  {
  }

  /** One face: `x`, `y` clamped below at 0, width and height clamped above at
      the image size, all rounded; the confidence rounded to hundredths; the
      landmarks from the unclamped box. */
  function MockFace(d: FaceDraw, w: int, h: int): Face
    requires w > 0 && h > 0
  {
    var g := FaceGeometry(d, w, h);
    Face(BoundingBox(Round(RMax(0.0, g.x)), Round(RMax(0.0, g.y)),
                     Round(RMin(g.width, w as real)), Round(RMin(g.height, h as real))),
         Round(g.confidence * 100.0),
         MockLandmarks(g, d))
  }

  /** The faces of the loop, in the order they are pushed. */
  function MockFaces(ds: seq<FaceDraw>, w: int, h: int): (fs: seq<Face>)
    requires w > 0 && h > 0
    ensures |fs| == |ds|
  {
    if ds == [] then []
    else MockFaces(ds[..|ds| - 1], w, h) + [MockFace(ds[|ds| - 1], w, h)]
  }

  lemma {:induction false} MockFacesAt(ds: seq<FaceDraw>, w: int, h: int, i: int)
    requires w > 0 && h > 0
    requires 0 <= i < |ds|
    ensures MockFaces(ds, w, h)[i] == MockFace(ds[i], w, h)
  {
    if i < |ds| - 1 { MockFacesAt(ds[..|ds| - 1], w, h, i); }
  }

  /** Every mock face respects the clamps and the confidence range, and has the
      four landmarks. */
  predicate MockFaceShape(f: Face, w: int, h: int) {
    f.box.x >= 0 && f.box.y >= 0 && 0 <= f.box.width <= w && 0 <= f.box.height <= h
    && 70 <= f.confidence <= 95 && Kinds(f.landmarks) == ["leftEye", "rightEye", "nose", "mouth"]
  }

  /** The box lies inside the image. */
  predicate InImage(f: Face, w: int, h: int) {
    f.box.x + f.box.width <= w && f.box.y + f.box.height <= h
  }

  /** Every landmark lies inside the face's box. */
  predicate LandmarksInBox(f: Face) {
    forall k :: 0 <= k < |f.landmarks| ==>
      f.box.x <= f.landmarks[k].x <= f.box.x + f.box.width
      && f.box.y <= f.landmarks[k].y <= f.box.y + f.box.height
  }

  /** The size drawn lies between the two size limits, the height is 1.2 to
      1.5 times it, and the capped confidence is between 0.70 and 0.95. */
  lemma GeometryBounds(d: FaceDraw, w: int, h: int)
    requires DrawInRange(d) && w > 0 && h > 0
    ensures var g := FaceGeometry(d, w, h);
      0.0 < MinFaceSize(w, h) <= g.width <= MaxFaceSize(w, h)
      && 1.2 * g.width <= g.height <= 1.5 * g.width
      && 0.7 <= g.confidence <= 0.95
  {
  }

  lemma MockFaceHasShape(d: FaceDraw, w: int, h: int)
    requires DrawInRange(d) && w > 0 && h > 0
    ensures MockFaceShape(MockFace(d, w, h), w, h)
  {
    var g := FaceGeometry(d, w, h);
    GeometryBounds(d, w, h);
    RoundMonotone(0.0, RMax(0.0, g.x));
    RoundMonotone(0.0, RMax(0.0, g.y));
    RoundMonotone(0.0, RMin(g.width, w as real));
    RoundMonotone(0.0, RMin(g.height, h as real));
    RoundMonotone(RMin(g.width, w as real), w as real);
    RoundMonotone(RMin(g.height, h as real), h as real);
    RoundMonotone(70.0, g.confidence * 100.0);
    RoundMonotone(g.confidence * 100.0, 95.0);
    LandmarkShape(g, d);
  }

  /** On an image of at least 40x40 the unrounded box keeps the 10-pixel margin
      on every side, and the face is at least 4 pixels wide and 4.8 high. */
  lemma GeometryInImage(d: FaceDraw, w: int, h: int)
    requires DrawInRange(d) && w >= 40 && h >= 40
    ensures var g := FaceGeometry(d, w, h);
      4.0 <= g.width && 4.8 <= g.height
      && Margin <= g.x && g.x + g.width <= w as real - Margin
      && Margin <= g.y && g.y + g.height <= h as real - Margin
  {
    GeometryBounds(d, w, h);
  }

  /** A point inside a box and more than half a unit short of its far side
      rounds into the rounded box. */
  lemma RoundsIntoBox(start: real, size: real, p: real)
    requires start <= p && p + 0.5 < start + size
    ensures Round(start) <= Round(p) <= Round(start) + Round(size)
  {
    RoundMonotone(start, p);
  }

  /** A landmark centered between 0.3 and 0.75 of a side at least 4 long,
      jittered by at most 2.5% of the side, rounds into the rounded side. */
  lemma AxisInBox(start: real, size: real, center: real, r: real)
    requires Unit(r) && 4.0 <= size
    requires start + size * 0.3 <= center <= start + size * 0.75
    ensures Round(start) <= Round(Jittered(center, size * 0.05, r)) <= Round(start) + Round(size)
  {
    RoundsIntoBox(start, size, Jittered(center, size * 0.05, r));
  }

  /** On an image of at least 40x40 every mock box lies inside the image and
      holds its landmarks. */
  lemma MockFaceInImage(d: FaceDraw, w: int, h: int)
    requires DrawInRange(d) && w >= 40 && h >= 40
    ensures InImage(MockFace(d, w, h), w, h) && LandmarksInBox(MockFace(d, w, h))
  {
    var g := FaceGeometry(d, w, h);
    GeometryInImage(d, w, h);
    assert RMax(0.0, g.x) == g.x && RMax(0.0, g.y) == g.y;
    assert RMin(g.width, w as real) == g.width && RMin(g.height, h as real) == g.height;
    LandmarkColumnsInBox(g, d);
    LandmarkRowsInBox(g, d);
  }

  /** The landmarks' `x` lie within the rounded box's columns. */
  lemma LandmarkColumnsInBox(g: Geometry, d: FaceDraw)
    requires DrawInRange(d) && 4.0 <= g.width
    ensures forall l :: l in MockLandmarks(g, d) ==> Round(g.x) <= l.x <= Round(g.x) + Round(g.width)
  {
    AxisInBox(g.x, g.width, g.x + g.width * 0.3, d.leftEye.dx);
    AxisInBox(g.x, g.width, g.x + g.width * 0.7, d.rightEye.dx);
    AxisInBox(g.x, g.width, g.x + g.width * 0.5, d.nose.dx);
    AxisInBox(g.x, g.width, g.x + g.width * 0.5, d.mouth.dx);
  }

  /** The landmarks' `y` lie within the rounded box's rows. */
  lemma LandmarkRowsInBox(g: Geometry, d: FaceDraw)
    requires DrawInRange(d) && 4.0 <= g.height
    ensures forall l :: l in MockLandmarks(g, d) ==> Round(g.y) <= l.y <= Round(g.y) + Round(g.height)
  {
    AxisInBox(g.y, g.height, g.y + g.height * 0.35, d.leftEye.dy);
    AxisInBox(g.y, g.height, g.y + g.height * 0.35, d.rightEye.dy);
    AxisInBox(g.y, g.height, g.y + g.height * 0.55, d.nose.dy);
    AxisInBox(g.y, g.height, g.y + g.height * 0.75, d.mouth.dy);
  }

  /** On a small image the margins no longer fit and a box can overhang: on a
      10x10 image, with every draw 0, the box starts at x = 10 and is 1 wide. */
  lemma BoxCanOverhang()
    ensures var zero := Jitter(0.0, 0.0);
      var f := MockFace(FaceDraw(0.0, 0.0, 0.0, 0.0, 0.0, zero, zero, zero, zero), 10, 10);
      f.box.x == 10 && f.box.width == 1 && !InImage(f, 10, 10)
  {
    var zero := Jitter(0.0, 0.0);
    var d := FaceDraw(0.0, 0.0, 0.0, 0.0, 0.0, zero, zero, zero, zero);
    assert MinFaceSize(10, 10) == 1.0 && MaxFaceSize(10, 10) == 3.0;
    var g := FaceGeometry(d, 10, 10);
    assert g.width == 1.0 && g.x == 10.0;
  }

  // ---------------------------------------------------------------------
  // `faces.sort((a, b) => b.confidence - a.confidence)`: a stable sort.

  predicate SortedByConfidence(fs: seq<Face>) {
    forall i, j :: 0 <= i < j < |fs| ==> fs[i].confidence >= fs[j].confidence
  }

  function Insert(f: Face, fs: seq<Face>): seq<Face> {
    if fs == [] || f.confidence >= fs[0].confidence then [f] + fs
    else [fs[0]] + Insert(f, fs[1..])
  }

  function SortByConfidence(fs: seq<Face>): seq<Face> {
    if fs == [] then [] else Insert(fs[0], SortByConfidence(fs[1..]))
  }

  lemma {:induction false} InsertPermutes(f: Face, fs: seq<Face>)
    ensures multiset(Insert(f, fs)) == multiset(fs) + multiset{f}
  {
    if !(fs == [] || f.confidence >= fs[0].confidence) {
      InsertPermutes(f, fs[1..]);
      assert fs == [fs[0]] + fs[1..];
    }
  }

  lemma {:induction false} InsertSorted(f: Face, fs: seq<Face>)
    requires SortedByConfidence(fs)
    ensures SortedByConfidence(Insert(f, fs))
  {
    if !(fs == [] || f.confidence >= fs[0].confidence) {
      InsertSorted(f, fs[1..]);
      InsertPermutes(f, fs[1..]);
      var rest := Insert(f, fs[1..]);
      forall k | 0 <= k < |rest| ensures fs[0].confidence >= rest[k].confidence {
        assert rest[k] in multiset(rest);
      }
    }
  }

  lemma InsertProps(f: Face, fs: seq<Face>)
    requires SortedByConfidence(fs)
    ensures SortedByConfidence(Insert(f, fs))
    ensures multiset(Insert(f, fs)) == multiset(fs) + multiset{f}
  {
    InsertSorted(f, fs);
    InsertPermutes(f, fs);
  }

  /** The sort puts the highest confidence first and only reorders. */
  lemma {:induction false} SortByConfidenceCorrect(fs: seq<Face>)
    ensures SortedByConfidence(SortByConfidence(fs))
    ensures multiset(SortByConfidence(fs)) == multiset(fs)
  {
    if fs != [] {
      SortByConfidenceCorrect(fs[1..]);
      InsertProps(fs[0], SortByConfidence(fs[1..]));
      assert fs == [fs[0]] + fs[1..];
    }
  }

  // ---------------------------------------------------------------------
  // The aggregate confidence.

  function Sum(cs: seq<int>): int {
    if cs == [] then 0 else cs[0] + Sum(cs[1..])
  }

  /** `Math.round(mean * 100) / 100` in hundredths: the mean rounded half up;
      0 for no faces. */
  function RoundedMean(cs: seq<int>): int {
    if |cs| == 0 then 0 else (2 * Sum(cs) + |cs|) / (2 * |cs|)
  }

  /** The rounded mean is the integer nearest to `Sum / n`, halves rounding up. */
  lemma RoundedMeanNearest(cs: seq<int>)
    requires |cs| > 0
    ensures 2 * |cs| * RoundedMean(cs) - |cs| <= 2 * Sum(cs) < 2 * |cs| * RoundedMean(cs) + |cs|
  {
    var n, s := |cs|, Sum(cs);
    var q := (2 * s + n) / (2 * n);
    var r := (2 * s + n) % (2 * n);
    assert 2 * s + n == (2 * n) * q + r && 0 <= r < 2 * n;
  }

  lemma {:induction false} SumBounds(cs: seq<int>, lo: int, hi: int)
    requires forall i :: 0 <= i < |cs| ==> lo <= cs[i] <= hi
    ensures |cs| * lo <= Sum(cs) <= |cs| * hi
  {
    if cs != [] {
      SumBounds(cs[1..], lo, hi);
      assert |cs| * lo == lo + (|cs| - 1) * lo;
      assert |cs| * hi == hi + (|cs| - 1) * hi;
    }
  }

  /** A mean of values in [lo, hi] stays in [lo, hi]. */
  lemma RoundedMeanBounds(cs: seq<int>, lo: int, hi: int)
    requires |cs| > 0
    requires forall i :: 0 <= i < |cs| ==> lo <= cs[i] <= hi
    ensures lo <= RoundedMean(cs) <= hi
  {
    var n, m := |cs|, RoundedMean(cs);
    SumBounds(cs, lo, hi);
    RoundedMeanNearest(cs);
    assert (m - hi) * (2 * n) < 1 * (2 * n);
    LessByFactor(m - hi, 1, 2 * n);
    assert (lo - m) * (2 * n) < 1 * (2 * n);
    LessByFactor(lo - m, 1, 2 * n);
  }

  lemma LessByFactor(a: int, b: int, c: int)
    requires c > 0 && a * c < b * c
    ensures a < b
  {
  }

  /** What a drawn face count and its face draws must satisfy: positive
      image sides, every draw a value of `Math.random()`, and a draw for each
      face. */
  predicate MockInputs(w: int, h: int, rand: real, draws: seq<FaceDraw>) {
    w > 0 && h > 0 && Unit(rand) && FaceCountFor(rand) <= |draws|
    && forall i :: 0 <= i < |draws| ==> DrawInRange(draws[i])
  }

  /** What `mockFaceDetection(imageWidth, imageHeight)` resolves with for the
      given draws: `faceCount` faces, sorted by confidence, a permutation of
      the faces the loop built, with the rounded mean as aggregate confidence. */
  ghost predicate IsMockOutput(out: DetectorOutput, w: int, h: int, rand: real, draws: seq<FaceDraw>)
    requires MockInputs(w, h, rand, draws)
  {
    out.faceCount == FaceCountFor(rand) == |out.faces|
    && out.apiProvider == "mock"
    && out.processingTime == None && out.imageWidth == None && out.imageHeight == None && out.error == None
    && SortedByConfidence(out.faces)
    && multiset(out.faces) == multiset(MockFaces(draws[..out.faceCount], w, h))
    && out.confidence == RoundedMean(Confidences(out.faces))
  }

  /** Consequences for the caller: at most four faces, sorted by descending
      confidence, each with the clamped box, a confidence in [0.70, 0.95] and
      the four landmarks, and on an image of at least 40x40 a box inside the
      image holding its landmarks; the aggregate is in the same range, or 0
      when there is no face. */
  lemma MockOutputShape(out: DetectorOutput, w: int, h: int, rand: real, draws: seq<FaceDraw>)
    requires MockInputs(w, h, rand, draws)
    requires IsMockOutput(out, w, h, rand, draws)
    ensures out.faceCount <= 4 && SortedByConfidence(out.faces)
    ensures forall i :: 0 <= i < |out.faces| ==> MockFaceShape(out.faces[i], w, h)
    ensures w >= 40 && h >= 40 ==>
      forall i :: 0 <= i < |out.faces| ==> InImage(out.faces[i], w, h) && LandmarksInBox(out.faces[i])
    ensures out.faces == [] ==> out.confidence == 0
    ensures out.faces != [] ==> 70 <= out.confidence <= 95
  {
    var built := MockFaces(draws[..out.faceCount], w, h);
    forall i | 0 <= i < |out.faces|
      ensures MockFaceShape(out.faces[i], w, h)
      ensures w >= 40 && h >= 40 ==> InImage(out.faces[i], w, h) && LandmarksInBox(out.faces[i])
    {
      assert out.faces[i] in multiset(built);
      var j :| 0 <= j < |built| && built[j] == out.faces[i];
      MockFacesAt(draws[..out.faceCount], w, h, j);
      MockFaceHasShape(draws[j], w, h);
      if w >= 40 && h >= 40 {
        MockFaceInImage(draws[j], w, h);
      }
    }
    if out.faces != [] {
      RoundedMeanBounds(Confidences(out.faces), 70, 95);
    }
  }

  /** The 800x600 image of the Google placeholder and of a failed `sharp`
      read: every box lies inside it. */
  lemma DefaultImageBoxesInside(out: DetectorOutput, rand: real, draws: seq<FaceDraw>)
    requires MockInputs(DefaultWidth, DefaultHeight, rand, draws)
    requires IsMockOutput(out, DefaultWidth, DefaultHeight, rand, draws)
    ensures forall i :: 0 <= i < |out.faces| ==>
      0 <= out.faces[i].box.x && out.faces[i].box.x + out.faces[i].box.width <= 800
      && 0 <= out.faces[i].box.y && out.faces[i].box.y + out.faces[i].box.height <= 600
  {
    MockOutputShape(out, DefaultWidth, DefaultHeight, rand, draws);
  }

  class VisionService {
    var isGoogleVisionEnabled: bool

    /** `initialize` leaves the Google path disabled whatever the credentials
        and environment. */
    constructor (hasCredentials: bool, production: bool)
      ensures !isGoogleVisionEnabled
    {
      isGoogleVisionEnabled := false;
    }

    method MockFaceDetection(imageWidth: int, imageHeight: int, rand: real, draws: seq<FaceDraw>)
      returns (out: DetectorOutput)
      requires MockInputs(imageWidth, imageHeight, rand, draws)
      ensures IsMockOutput(out, imageWidth, imageHeight, rand, draws)
    {
      var faceCount := FaceCountFor(rand);
      var faces: seq<Face> := [];
      for i := 0 to faceCount
        invariant faces == MockFaces(draws[..i], imageWidth, imageHeight)
      {
        assert draws[..i + 1][..i] == draws[..i];
        faces := faces + [MockFace(draws[i], imageWidth, imageHeight)];
      }
      var built := faces;
      faces := SortByConfidence(faces);
      SortByConfidenceCorrect(built);
      assert |faces| == |multiset(faces)| == |multiset(built)| == |built|;
      out := DetectorOutput(faceCount, faces, RoundedMean(Confidences(faces)), "mock", None, None, None, None);
    }

    /** The placeholder Google path: the mock at 800x600. */
    method GoogleVisionDetection(rand: real, draws: seq<FaceDraw>) returns (out: DetectorOutput)
      requires MockInputs(DefaultWidth, DefaultHeight, rand, draws)
      ensures IsMockOutput(out, DefaultWidth, DefaultHeight, rand, draws)
    {
      out := MockFaceDetection(DefaultWidth, DefaultHeight, rand, draws);
    }

    /** `detectFaces` on a bound receiver. `dims` is what `sharp` reads (None when
        it throws; a decoded image has positive sides), `elapsed` the measured
        time, and `crash` the message of an exception raised inside the outer
        `try`, which becomes the error record. */
    method DetectFaces(dims: Option<(int, int)>, production: bool, elapsed: int,
                       rand: real, draws: seq<FaceDraw>, crash: Option<string>)
      returns (out: DetectorOutput)
      requires dims.Some? ==> dims.value.0 > 0 && dims.value.1 > 0
      requires MockInputs(DefaultWidth, DefaultHeight, rand, draws)
      ensures crash.Some? ==> out == ErrorOutput(crash.value)
      ensures crash.None? ==>
        var (w, h) := if dims.Some? then dims.value else (DefaultWidth, DefaultHeight);
        var (mw, mh) := if isGoogleVisionEnabled && production then (DefaultWidth, DefaultHeight) else (w, h);
        out.processingTime == Some(elapsed) && out.imageWidth == Some(w) && out.imageHeight == Some(h)
        && IsMockOutput(out.(processingTime := None, imageWidth := None, imageHeight := None), mw, mh, rand, draws)
    {
      if crash.Some? {
        out := ErrorOutput(crash.value);
        return;
      }
      var w, h := DefaultWidth, DefaultHeight;
      if dims.Some? {
        w, h := dims.value.0, dims.value.1;
      }
      var results;
      if isGoogleVisionEnabled && production {
        results := GoogleVisionDetection(rand, draws);
      } else {
        results := MockFaceDetection(w, h, rand, draws);
      }
      out := results.(processingTime := Some(elapsed), imageWidth := Some(w), imageHeight := Some(h));
    }
  }

  /** The record returned from the `catch`: no faces, 800x600, provider 'error'. */
  function ErrorOutput(message: string): (out: DetectorOutput)
    ensures out.faceCount == 0 && out.faces == [] && out.confidence == 0
    ensures out.apiProvider == "error" && out.error == Some(message)
    ensures out.processingTime == Some(ErrorProcessingTime)
    ensures out.imageWidth == Some(DefaultWidth) && out.imageHeight == Some(DefaultHeight)
  {
    DetectorOutput(0, [], 0, "error", Some(ErrorProcessingTime), Some(DefaultWidth), Some(DefaultHeight), Some(message))
  }
}
