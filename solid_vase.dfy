/** `SolidVase` of vase.rb: a stack of twisted, scaled, star-profiled slabs. */
module SolidVase {
  import opened RubyMath
  import opened Solid

  /** The struct's members. `step_size`, `height` and `edges` are Ruby integers;
      the other members are reals (`base_radius` is a float for the inner vase). */
  datatype VaseParams = VaseParams(
    stepSize: int,
    height: int,
    twist: real,
    baseRadius: real,
    edges: int,
    edgeness: real,
    pinch: real)

  /** `steps = height/step_size`, Ruby integer division. */
  function Steps(p: VaseParams): int
    requires p.stepSize != 0
  {
    FloorDiv(p.height, p.stepSize)
  }

  /** A run of at least one step needs a non-zero height, so every radius factor
      of a slab is defined. */
  lemma StepsNeedHeight(p: VaseParams)
    requires p.stepSize != 0 && Steps(p) >= 1
    ensures p.height != 0
    ensures p.stepSize > 0 ==> p.height >= p.stepSize * Steps(p) > 0
    ensures p.stepSize < 0 ==> p.height <= p.stepSize * Steps(p) < 0
  {
    var q := Steps(p);
    FloorDivIsFloor(p.height, p.stepSize);
    MulStrict(p.stepSize, 0, q);
  }

  /** `twist_per_step = twist.to_f/steps`. */
  function TwistPerStep(p: VaseParams): real
    requires p.stepSize != 0 && Steps(p) != 0
  {
    p.twist / (Steps(p) as real)
  }

  /** `calculate_radius_factor(current_height)`: `pinch * sin(degrees) + 1`, where
      the angle is the height's fraction of the total height times 360 degrees. */
  function RadiusFactor(p: VaseParams, trig: Trig, currentHeight: int): (rf: real)
    requires p.height != 0
    ensures p.pinch == 0.0 ==> rf == 1.0
  {
    p.pinch * trig.sin(trig.radians(HeightDegrees(p, currentHeight))) + 1.0
  }

  /** `current_height.to_f / height * 360`: the height as an angle in degrees, a full
      turn at the top of the vase. */
  function HeightDegrees(p: VaseParams, currentHeight: int): real
    requires p.height != 0
  {
    (currentHeight as real) / (p.height as real) * 360.0
  }

  /** `current_height = step_size * step`, the height of the bottom of slab `s`. */
  function SlabHeight(p: VaseParams, s: int): int
  {
    p.stepSize * s
  }

  /** The radius factor at the bottom of slab `s`. */
  function BottomFactor(p: VaseParams, trig: Trig, s: int): real
    requires p.height != 0
  {
    RadiusFactor(p, trig, SlabHeight(p, s))
  }

  /** What `build` needs but never checks: a non-zero step (Ruby raises on zero),
      and a non-zero radius factor at the bottom of every slab (it divides the
      factor at the slab's top by it). */
  predicate WellFormed(p: VaseParams, trig: Trig)
  {
    p.stepSize != 0 &&
    (p.height != 0 ==> forall s :: 1 <= s <= Steps(p) ==> BottomFactor(p, trig, s) != 0.0)
  }

  /** `slice`, in degrees before the conversion to radians. */
  function SliceDegrees(p: VaseParams): real
    requires p.edges >= 1
  {
    360.0 / ((p.edges * 2) as real)
  }

  /** The slice is the angle between neighbouring star vertices: positive, and
      `2 * edges` of them make a full turn. */
  lemma SliceDegreesTurn(p: VaseParams)
    requires p.edges >= 1
    ensures SliceDegrees(p) > 0.0
    ensures SliceDegrees(p) * ((2 * p.edges) as real) == 360.0
  {
    var n := (p.edges * 2) as real;
    assert n > 0.0;
    assert (360.0 / n) * n == 360.0;
  }

  /** `slice = (360.to_f/(edges*2)).radians`. The source memoises it in `@slice`;
      as a function of `edges` it needs no cache. */
  function Slice(p: VaseParams, trig: Trig): real
    requires p.edges >= 1
  {
    trig.radians(SliceDegrees(p))
  }

  /** `ri`, the inner (valley) radius of the star. */
  function InnerRadius(p: VaseParams, rf: real): real
  {
    (p.baseRadius - p.edgeness) * rf
  }

  /** `re`, the outer (tip) radius of the star. */
  function OuterRadius(p: VaseParams, rf: real): real
  {
    p.baseRadius * rf
  }

  /** `r = p.even? ? ri : re`. */
  function VertexRadius(p: VaseParams, rf: real, k: int): real
  {
    if k % 2 == 0 then InnerRadius(p, rf) else OuterRadius(p, rf)
  }

  /** `[r*cos(a), r*sin(a)]`. */
  function Polar(trig: Trig, r: real, a: real): Point
  {
    Point(r * trig.cos(a), r * trig.sin(a))
  }

  /** `slice*k`, the angle of vertex `k`. */
  function Angle(p: VaseParams, trig: Trig, k: int): real
    requires p.edges >= 1
  {
    Slice(p, trig) * (k as real)
  }

  /** The block of `star`'s `map`: vertex `k` at radius `VertexRadius` and angle
      `Angle`. */
  function Vertex(p: VaseParams, trig: Trig, rf: real, k: int): Point
    requires p.edges >= 1
  {
    Polar(trig, VertexRadius(p, rf, k), Angle(p, trig, k))
  }

  /** `(lo...hi).map { |k| vertex k }`. */
  function Vertices(p: VaseParams, trig: Trig, rf: real, lo: int, hi: int): (pts: seq<Point>)
    requires p.edges >= 1
    decreases hi - lo
    ensures |pts| == if lo < hi then hi - lo else 0
    ensures forall i :: 0 <= i < |pts| ==> pts[i] == Vertex(p, trig, rf, lo + i)
  {
    if lo >= hi then [] else [Vertex(p, trig, rf, lo)] + Vertices(p, trig, rf, lo + 1, hi)
  }

  /** The length of the range `0...(edges*2)`. */
  function VertexCount(p: VaseParams): nat
  {
    if p.edges <= 0 then 0 else 2 * p.edges
  }

  /** `star(radius_factor)`: a polygon over `0...(edges*2)`. When that range is
      empty the block, and so `slice`, is never evaluated. */
  function Star(p: VaseParams, trig: Trig, rf: real): (r: SolidOp)
    ensures r.Polygon? && |r.points| == VertexCount(p)
    ensures p.edges >= 1 ==> forall k :: 0 <= k < |r.points| ==> r.points[k] == Vertex(p, trig, rf, k)
  {
    if p.edges <= 0 then Polygon([]) else Polygon(Vertices(p, trig, rf, 0, p.edges * 2))
  }

  /** `trz`: translate along z around a rotation about z. */
  function Trz(translate: int, rotate: real, body: SolidOp): SolidOp
  {
    Translate(translate as real, Rotate(rotate, body))
  }

  /** `-twist_per_step * step`, the rotation of slab `s`. */
  function SlabRotation(p: VaseParams, s: int): real
    requires p.stepSize != 0 && Steps(p) != 0
  {
    -TwistPerStep(p) * (s as real)
  }

  /** The body of `(1..steps).each` for step `s`. */
  function Slab(p: VaseParams, trig: Trig, s: int): (slab: SolidOp)
    requires WellFormed(p, trig) && 1 <= s <= Steps(p)
    ensures slab.Translate? && slab.body.Rotate? && slab.body.body.LinearExtrude?
    ensures slab.body.body.body.Polygon?
  {
    StepsNeedHeight(p);
    assert BottomFactor(p, trig, s) != 0.0;
    var currentHeight := SlabHeight(p, s);
    var radiusFactor := RadiusFactor(p, trig, currentHeight);
    var scale := RadiusFactor(p, trig, currentHeight + p.stepSize) / radiusFactor;
    Trz(currentHeight, SlabRotation(p, s),
        LinearExtrude(p.stepSize as real, scale, TwistPerStep(p), Star(p, trig, radiusFactor)))
  }

  /** The slabs of steps `1..n`, in the order the loop emits them. */
  function Slabs(p: VaseParams, trig: Trig, n: int): (ss: seq<SolidOp>)
    requires WellFormed(p, trig) && n <= SlabCount(p)
    decreases n
    ensures |ss| == if n <= 0 then 0 else n
    ensures forall i :: 0 <= i < |ss| ==> ss[i] == Slab(p, trig, i + 1)
  {
    if n <= 0 then [] else Slabs(p, trig, n - 1) + [Slab(p, trig, n)]
  }

  /** The number of slabs `build` emits: the length of `1..steps`. */
  function SlabCount(p: VaseParams): nat
    requires p.stepSize != 0
  {
    if Steps(p) <= 0 then 0 else Steps(p)
  }

  /** `build`: one union whose children are the slabs of steps `1..steps`, in
      ascending order. */
  function Build(p: VaseParams, trig: Trig): (r: SolidOp)
    requires WellFormed(p, trig)
    ensures r.Union? && |r.children| == SlabCount(p)
    ensures forall i :: 0 <= i < |r.children| ==> r.children[i] == Slab(p, trig, i + 1)
  {
    Union(Slabs(p, trig, SlabCount(p)))
  }

  /** `build` as the source runs it: the loop over `1..steps` emits one slab per
      step into the enclosing union. */
  method BuildByEmission(p: VaseParams, trig: Trig) returns (op: SolidOp)
    requires WellFormed(p, trig)
    ensures op == Build(p, trig)
  {
    var steps := FloorDiv(p.height, p.stepSize);
    assert steps == Steps(p);
    var children: seq<SolidOp> := [];
    var step := 1;
    while step <= steps
      invariant 1 <= step <= if steps < 1 then 1 else steps + 1
      invariant children == Slabs(p, trig, step - 1)
    {
      StepsNeedHeight(p);
      assert BottomFactor(p, trig, step) != 0.0;
      var currentHeight := p.stepSize * step;
      var twistPerStep := p.twist / (steps as real);
      var radiusFactor := RadiusFactor(p, trig, currentHeight);
      var scale := RadiusFactor(p, trig, currentHeight + p.stepSize) / radiusFactor;
      var slab := Translate(currentHeight as real, Rotate(-twistPerStep * (step as real),
        LinearExtrude(p.stepSize as real, scale, twistPerStep, Star(p, trig, radiusFactor))));
      assert slab == Slab(p, trig, step);
      assert Slabs(p, trig, step) == Slabs(p, trig, step - 1) + [slab];
      children := children + [slab];
      step := step + 1;
    }
    assert step - 1 == SlabCount(p);
    op := Union(children);
  }
}
