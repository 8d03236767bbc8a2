/** What the tree that `SolidVase#build` emits guarantees: how many slabs, where
    each sits, how its twist and scale thread through the stack, and the shape of
    each star profile. */
module VaseProperties {
  import opened RubyMath
  import opened Solid
  import opened SolidVase

  // ---------------------------------------------------------------- radius factor

  /** The product of two non-negative reals is non-negative. */
  lemma MulNonNegative(x: real, y: real)
    requires x >= 0.0 && y >= 0.0
    ensures x * y >= 0.0
  {}

  /** With a real sine the factor stays within `pinch` of 1. */
  lemma RadiusFactorBounds(p: VaseParams, trig: Trig, h: int)
    requires SineBounded(trig) && p.height != 0
    ensures p.pinch >= 0.0 ==> 1.0 - p.pinch <= RadiusFactor(p, trig, h) <= 1.0 + p.pinch
    ensures p.pinch < 0.0 ==> 1.0 + p.pinch <= RadiusFactor(p, trig, h) <= 1.0 - p.pinch
  {
    var v := trig.sin(trig.radians(HeightDegrees(p, h)));
    assert RadiusFactor(p, trig, h) == p.pinch * v + 1.0;
    SineAt(trig, trig.radians(HeightDegrees(p, h)));
    if p.pinch >= 0.0 {
      MulNonNegative(p.pinch, v + 1.0);
      MulNonNegative(p.pinch, 1.0 - v);
    } else {
      MulNonNegative(-p.pinch, v + 1.0);
      MulNonNegative(-p.pinch, 1.0 - v);
    }
  }

  /** The factor runs through one full sine period over the vase's height. */
  lemma RadiusFactorPeriodic(p: VaseParams, trig: Trig, h: int)
    requires p.height != 0
    requires forall x :: trig.sin(trig.radians(x + 360.0)) == trig.sin(trig.radians(x))
    ensures RadiusFactor(p, trig, h + p.height) == RadiusFactor(p, trig, h)
  {
    var hh := p.height as real;
    var u := (h as real) / hh;
    assert ((h + p.height) as real) == (h as real) + hh;
    assert ((h as real) + hh) / hh == u + hh / hh;
    assert HeightDegrees(p, h + p.height) == HeightDegrees(p, h) + 360.0;
  }

  /** A pinch strictly between -1 and 1 keeps every factor positive, so any such
      vase can be built. */
  lemma SmallPinchWellFormed(p: VaseParams, trig: Trig)
    requires SineBounded(trig) && p.stepSize != 0 && -1.0 < p.pinch < 1.0
    ensures WellFormed(p, trig)
  {
    if p.height != 0 {
      forall s | 1 <= s <= Steps(p)
        ensures BottomFactor(p, trig, s) != 0.0
      {
        RadiusFactorBounds(p, trig, p.stepSize * s);
      }
    }
  }

  /** Whether a vase can be built does not depend on its base radius. */
  lemma WellFormedIgnoresBaseRadius(p: VaseParams, trig: Trig, r: real)
    ensures WellFormed(p.(baseRadius := r), trig) <==> WellFormed(p, trig)
  {
    var q := p.(baseRadius := r);
    if p.stepSize != 0 && p.height != 0 {
      assert Steps(q) == Steps(p);
      forall s | 1 <= s <= Steps(p)
        ensures BottomFactor(q, trig, s) == BottomFactor(p, trig, s)
      {}
    }
  }

  // ---------------------------------------------------------------- star profile

  /** Even-indexed vertices are the valleys and odd-indexed ones the tips; when the
      star is not degenerate (non-zero `edgeness` and factor) those are distinct
      radii, so the parity of the index decides which one a vertex gets. */
  lemma VertexParity(p: VaseParams, rf: real, k: int)
    requires p.edgeness != 0.0 && rf != 0.0
    ensures VertexRadius(p, rf, k) == InnerRadius(p, rf) <==> k % 2 == 0
    ensures VertexRadius(p, rf, k) == OuterRadius(p, rf) <==> k % 2 == 1
  {
    assert OuterRadius(p, rf) - InnerRadius(p, rf) == p.edgeness * rf;
    assert p.edgeness * rf != 0.0;
  }

  /** An even-indexed vertex is a valley: inner radius, at `k` slices. */
  lemma ValleyVertex(p: VaseParams, trig: Trig, rf: real, k: int)
    requires p.edges >= 1 && k % 2 == 0
    ensures Vertex(p, trig, rf, k) == Polar(trig, InnerRadius(p, rf), Angle(p, trig, k))
  {
  }

  /** An odd-indexed vertex is a tip: outer radius, at `k` slices. */
  lemma TipVertex(p: VaseParams, trig: Trig, rf: real, k: int)
    requires p.edges >= 1 && k % 2 == 1
    ensures Vertex(p, trig, rf, k) == Polar(trig, OuterRadius(p, rf), Angle(p, trig, k))
  {
  }

  /** `2 * n - 1` is odd. */
  lemma OddBeforeEven(n: int)
    ensures (2 * n - 1) % 2 == 1
  {}

  /** Vertex 0 is a valley, at angle 0. */
  lemma StarStartsWithValley(p: VaseParams, trig: Trig, rf: real)
    requires p.edges >= 1
    ensures Star(p, trig, rf).points[0] == Polar(trig, InnerRadius(p, rf), 0.0)
  {
    assert Star(p, trig, rf).points[0] == Vertex(p, trig, rf, 0);
    ValleyVertex(p, trig, rf, 0);
  }

  /** The last vertex is a tip, one slice short of the full turn. */
  lemma StarEndsWithTip(p: VaseParams, trig: Trig, rf: real)
    requires p.edges >= 1
    ensures Star(p, trig, rf).points[2 * p.edges - 1]
         == Polar(trig, OuterRadius(p, rf), Angle(p, trig, 2 * p.edges - 1))
    ensures SliceDegrees(p) * ((2 * p.edges - 1) as real) == 360.0 - SliceDegrees(p)
  {
    SliceDegreesTurn(p);
    assert ((2 * p.edges - 1) as real) == ((2 * p.edges) as real) - 1.0;
    OddBeforeEven(p.edges);
    assert Star(p, trig, rf).points[2 * p.edges - 1] == Vertex(p, trig, rf, 2 * p.edges - 1);
    TipVertex(p, trig, rf, 2 * p.edges - 1);
  }

  /** Neighbouring vertices are one slice apart. */
  lemma AngleStep(p: VaseParams, trig: Trig, k: int)
    requires p.edges >= 1
    ensures Angle(p, trig, k + 1) == Angle(p, trig, k) + Slice(p, trig)
  {
    assert ((k + 1) as real) == (k as real) + 1.0;
  }

  /** The star repeats every two vertices: vertex `k + 2` has vertex `k`'s radius
      (and, by `AngleStep`, lies two slices further round), so the profile has
      `edges`-fold symmetry. */
  lemma StarPeriodic(p: VaseParams, trig: Trig, rf: real, k: int)
    requires p.edges >= 1 && 0 <= k && k + 2 < 2 * p.edges
    ensures Star(p, trig, rf).points[k + 2] == Polar(trig, VertexRadius(p, rf, k), Angle(p, trig, k + 2))
  {
    assert Star(p, trig, rf).points[k + 2] == Vertex(p, trig, rf, k + 2);
    assert (k + 2) % 2 == k % 2;
    assert VertexRadius(p, rf, k + 2) == VertexRadius(p, rf, k);
  }

  /** Scaling a point given in polar form scales its radius. */
  lemma PolarScales(trig: Trig, r: real, a: real, f: real)
    ensures ScalePoint(f, Polar(trig, r, a)) == Polar(trig, r * f, a)
  {
    var c, s := trig.cos(a), trig.sin(a);
    assert f * (r * c) == (r * f) * c;
    assert f * (r * s) == (r * f) * s;
  }

  /** Scaling vertex `k` of a star scales its radius, whatever side of the star
      it is on. */
  lemma VertexScales(p: VaseParams, trig: Trig, rf: real, f: real, k: int)
    requires p.edges >= 1
    ensures ScalePoint(f, Vertex(p, trig, rf, k)) == Vertex(p, trig, rf * f, k)
  {
    var ang := Angle(p, trig, k);
    var r := VertexRadius(p, rf, k);
    RadiusScales(p, rf, f, k);
    PolarScales(trig, r, ang, f);
  }

  /** The same for the radius alone. */
  lemma RadiusScales(p: VaseParams, rf: real, f: real, k: int)
    ensures VertexRadius(p, rf * f, k) == VertexRadius(p, rf, k) * f
  {
    var base := if k % 2 == 0 then p.baseRadius - p.edgeness else p.baseRadius;
    assert VertexRadius(p, rf * f, k) == base * (rf * f);
    assert VertexRadius(p, rf, k) == base * rf;
    assert base * (rf * f) == (base * rf) * f;
  }

  /** Scaling a star by `f` gives the star of the factor multiplied by `f`. */
  lemma StarScales(p: VaseParams, trig: Trig, rf: real, f: real)
    ensures |Star(p, trig, rf * f).points| == |Star(p, trig, rf).points|
    ensures forall k :: 0 <= k < |Star(p, trig, rf).points| ==>
      ScalePoint(f, Star(p, trig, rf).points[k]) == Star(p, trig, rf * f).points[k]
  {
    var a := Star(p, trig, rf);
    var b := Star(p, trig, rf * f);
    forall k | 0 <= k < |a.points|
      ensures ScalePoint(f, a.points[k]) == b.points[k]
    {
      VertexScales(p, trig, rf, f, k);
    }
  }

  // ---------------------------------------------------------------- slabs

  /** Each slab starts one step above the previous one. */
  lemma NextSlabHeight(p: VaseParams, s: int)
    ensures SlabHeight(p, s + 1) == SlabHeight(p, s) + p.stepSize
  {
  }

  /** Each slab is rotated one step's twist further back than the previous one. */
  lemma NextSlabRotation(p: VaseParams, s: int)
    requires p.stepSize != 0 && Steps(p) != 0
    ensures SlabRotation(p, s + 1) == SlabRotation(p, s) - TwistPerStep(p)
  {
    assert ((s + 1) as real) == (s as real) + 1.0;
  }

  /** `x * (y / x) == y` for a non-zero `x`. */
  lemma DivCancels(x: real, y: real)
    requires x != 0.0
    ensures x * (y / x) == y
  {}

  /** Slab `s` is a translation to `step_size * s` around a rotation by
      `-twist_per_step * s` around an extrusion one step high with twist
      `twist_per_step`, whose scale takes the factor at the slab's bottom to the
      factor one step higher, of the star at the bottom factor. */
  lemma SlabLayout(p: VaseParams, trig: Trig, s: int)
    requires WellFormed(p, trig) && 1 <= s <= Steps(p)
    ensures p.height != 0
    ensures Slab(p, trig, s).z == SlabHeight(p, s) as real
    ensures Slab(p, trig, s).body.z == SlabRotation(p, s)
    ensures Slab(p, trig, s).body.body.height == p.stepSize as real
    ensures Slab(p, trig, s).body.body.twist == TwistPerStep(p)
    ensures BottomFactor(p, trig, s) * Slab(p, trig, s).body.body.scale == BottomFactor(p, trig, s + 1)
    ensures Slab(p, trig, s).body.body.body == Star(p, trig, BottomFactor(p, trig, s))
  {
    StepsNeedHeight(p);
    assert BottomFactor(p, trig, s) != 0.0;
    NextSlabHeight(p, s);
    assert Slab(p, trig, s).body.body.scale == BottomFactor(p, trig, s + 1) / BottomFactor(p, trig, s);
    DivCancels(BottomFactor(p, trig, s), BottomFactor(p, trig, s + 1));
  }

  /** The profile of slab `s` is the star of the factor at its bottom. */
  lemma SlabProfile(p: VaseParams, trig: Trig, s: int)
    requires WellFormed(p, trig) && 1 <= s <= Steps(p)
    ensures p.height != 0
    ensures Slab(p, trig, s).body.body.body == Star(p, trig, BottomFactor(p, trig, s))
  {
    StepsNeedHeight(p);
  }

  /** Neighbouring slabs stack: slab `s + 1` starts where the extrusion of slab `s`
      ends. */
  lemma SlabsStack(p: VaseParams, trig: Trig, s: int)
    requires WellFormed(p, trig) && 1 <= s < Steps(p)
    ensures Slab(p, trig, s + 1).z == Slab(p, trig, s).z + Slab(p, trig, s).body.body.height
  {
    SlabLayout(p, trig, s);
    SlabLayout(p, trig, s + 1);
    NextSlabHeight(p, s);
  }

  /** The rotation of slab `s + 1` continues where the twist of slab `s` left off
      (OpenSCAD twists the top of an extrusion clockwise by `twist` degrees). */
  lemma SlabsTwistOn(p: VaseParams, trig: Trig, s: int)
    requires WellFormed(p, trig) && 1 <= s < Steps(p)
    ensures Slab(p, trig, s + 1).body.z == Slab(p, trig, s).body.z - Slab(p, trig, s).body.body.twist
  {
    SlabLayout(p, trig, s);
    SlabLayout(p, trig, s + 1);
    NextSlabRotation(p, s);
  }

  /** The polygon of slab `s + 1` is that of slab `s` scaled by slab `s`'s `scale`,
      which is how `linear_extrude` shapes the top face of slab `s`: the faces meet. */
  lemma SlabsScaleOn(p: VaseParams, trig: Trig, s: int)
    requires WellFormed(p, trig) && 1 <= s < Steps(p)
    ensures |Slab(p, trig, s + 1).body.body.body.points| == |Slab(p, trig, s).body.body.body.points|
    ensures forall k :: 0 <= k < |Slab(p, trig, s).body.body.body.points| ==>
      ScalePoint(Slab(p, trig, s).body.body.scale, Slab(p, trig, s).body.body.body.points[k])
      == Slab(p, trig, s + 1).body.body.body.points[k]
  {
    SlabLayout(p, trig, s);
    SlabLayout(p, trig, s + 1);
    var f := Slab(p, trig, s).body.body.scale;
    var rf := BottomFactor(p, trig, s);
    assert rf * f == BottomFactor(p, trig, s + 1);
    StarScales(p, trig, rf, f);
  }

  /** The twist of a slab's extrusion. */
  function SlabTwist(slab: SolidOp): real
  {
    match slab
    case Translate(_, Rotate(_, LinearExtrude(_, _, t, _))) => t
    case _ => 0.0
  }

  /** The scale of a slab's extrusion. */
  function SlabScale(slab: SolidOp): real
  {
    match slab
    case Translate(_, Rotate(_, LinearExtrude(_, sc, _, _))) => sc
    case _ => 1.0
  }

  /** The sum of the extrusion twists of a stack of slabs. */
  function TotalTwist(slabs: seq<SolidOp>): real
  {
    if slabs == [] then 0.0 else TotalTwist(slabs[..|slabs| - 1]) + SlabTwist(slabs[|slabs| - 1])
  }

  /** A radius factor `start` after each slab of a stack, bottom to top, has
      scaled it by its extrusion's scale. */
  function Scaled(start: real, slabs: seq<SolidOp>): real
  {
    if slabs == [] then start else Scaled(start, slabs[..|slabs| - 1]) * SlabScale(slabs[|slabs| - 1])
  }

  /** A stack whose every slab has extrusion twist `t` twists by `t` per slab. */
  lemma {:induction false} EvenTwist(ss: seq<SolidOp>, t: real)
    requires forall i :: 0 <= i < |ss| ==> SlabTwist(ss[i]) == t
    ensures TotalTwist(ss) == (|ss| as real) * t
  {
    if ss != [] {
      var init := ss[..|ss| - 1];
      EvenTwist(init, t);
      assert (|init| as real) == (|ss| as real) - 1.0;
    }
  }

  /** Putting a slab on top of a stack scales the stack's result by the slab's scale. */
  lemma ScaledSnoc(start: real, init: seq<SolidOp>, slab: SolidOp)
    ensures Scaled(start, init + [slab]) == Scaled(start, init) * SlabScale(slab)
  {
    assert (init + [slab])[..|init|] == init;
  }

  /** One more step of a chain of factors: if a stack takes `start` to `mid` and the
      slab on top scales `mid` to `end`, the taller stack takes `start` to `end`. */
  lemma ScaledStep(start: real, init: seq<SolidOp>, slab: SolidOp, mid: real, end: real)
    requires Scaled(start, init) == mid && Scaled(mid, [slab]) == end
    ensures Scaled(start, init + [slab]) == end
  {
    ScaledSnoc(start, init, slab);
    ScaledSnoc(mid, [], slab);
    assert [] + [slab] == [slab];
  }

  /** The twist of slab `s` is `twist_per_step`. */
  lemma SlabTwistIs(p: VaseParams, trig: Trig, s: int)
    requires WellFormed(p, trig) && 1 <= s <= Steps(p)
    ensures SlabTwist(Slab(p, trig, s)) == TwistPerStep(p)
  {
    SlabLayout(p, trig, s);
  }

  /** The scale of slab `s` takes the factor at its bottom to the factor at its top. */
  lemma SlabScaleIs(p: VaseParams, trig: Trig, s: int)
    requires WellFormed(p, trig) && 1 <= s <= Steps(p)
    ensures p.height != 0
    ensures BottomFactor(p, trig, s) * SlabScale(Slab(p, trig, s)) == BottomFactor(p, trig, s + 1)
  {
    SlabLayout(p, trig, s);
  }

  /** `n` equal shares of `y / n` make up `y`. */
  lemma EvenShares(total: real, n: real, t: real, y: real)
    requires n != 0.0 && t == y / n && total == n * t
    ensures total == y
  {
    DivCancels(n, y);
  }

  /** A stack of `n` slabs that each twist by `y / n` twists by `y` in all. */
  lemma EvenStack(ss: seq<SolidOp>, n: int, y: real, t: real)
    requires |ss| == n >= 1 && t == y / (n as real)
    requires forall i :: 0 <= i < |ss| ==> SlabTwist(ss[i]) == t
    ensures TotalTwist(ss) == y
  {
    EvenTwist(ss, t);
    EvenShares(TotalTwist(ss), n as real, t, y);
  }

  /** Every slab of the vase twists by `twist_per_step`, here `t`. */
  lemma SlabTwistsEven(p: VaseParams, trig: Trig, t: real)
    requires WellFormed(p, trig) && Steps(p) >= 1 && t == TwistPerStep(p)
    ensures forall i :: 0 <= i < |Build(p, trig).children| ==> SlabTwist(Build(p, trig).children[i]) == t
  {
    var ss := Build(p, trig).children;
    forall i | 0 <= i < |ss|
      ensures SlabTwist(ss[i]) == t
    {
      SlabTwistIs(p, trig, i + 1);
    }
  }

  /** The per-slab twists add up to the whole `twist`. */
  lemma TwistsAddUp(p: VaseParams, trig: Trig)
    requires WellFormed(p, trig) && Steps(p) >= 1
    ensures TotalTwist(Build(p, trig).children) == p.twist
  {
    var ss := Build(p, trig).children;
    var t := TwistPerStep(p);
    SlabTwistsEven(p, trig, t);
    EvenStack(ss, Steps(p), p.twist, t);
  }

  /** Slab `s` alone scales the factor at its bottom to the factor at its top. */
  lemma SlabScaled(p: VaseParams, trig: Trig, s: int)
    requires WellFormed(p, trig) && 1 <= s <= Steps(p)
    ensures p.height != 0
    ensures Scaled(BottomFactor(p, trig, s), [Slab(p, trig, s)]) == BottomFactor(p, trig, s + 1)
  {
    SlabScaleIs(p, trig, s);
    ScaledSnoc(BottomFactor(p, trig, s), [], Slab(p, trig, s));
    assert [] + [Slab(p, trig, s)] == [Slab(p, trig, s)];
  }

  /** The first slab's scale takes the factor at its bottom to the factor at the
      bottom of slab 2. */
  lemma ScaleOfFirstSlab(p: VaseParams, trig: Trig)
    requires WellFormed(p, trig) && 1 <= SlabCount(p)
    ensures p.height != 0
    ensures Scaled(BottomFactor(p, trig, 1), Slabs(p, trig, 1)) == BottomFactor(p, trig, 2)
  {
    StepsNeedHeight(p);
    var top := Slab(p, trig, 1);
    assert Slabs(p, trig, 1) == [] + [top];
    SlabScaled(p, trig, 1);
    ScaledStep(BottomFactor(p, trig, 1), [], top, BottomFactor(p, trig, 1), BottomFactor(p, trig, 2));
  }

  /** If slabs `1..n - 1` take the first factor to the one at the bottom of slab
      `n`, slabs `1..n` take it to the one at the bottom of slab `n + 1`. */
  lemma ScaleOfNextSlab(p: VaseParams, trig: Trig, n: int)
    requires WellFormed(p, trig) && 2 <= n <= SlabCount(p)
    requires p.height != 0
    requires Scaled(BottomFactor(p, trig, 1), Slabs(p, trig, n - 1)) == BottomFactor(p, trig, n)
    ensures Scaled(BottomFactor(p, trig, 1), Slabs(p, trig, n)) == BottomFactor(p, trig, n + 1)
  {
    var below := Slabs(p, trig, n - 1);
    var top := Slab(p, trig, n);
    assert Slabs(p, trig, n) == below + [top];
    SlabScaled(p, trig, n);
    ScaledStep(BottomFactor(p, trig, 1), below, top, BottomFactor(p, trig, n), BottomFactor(p, trig, n + 1));
  }

  /** The scales of slabs `1..n`, applied in turn, take the factor at the first
      slab's bottom to the factor at the bottom of slab `n + 1`. */
  lemma {:induction false} ScaleOfSlabs(p: VaseParams, trig: Trig, n: int)
    requires WellFormed(p, trig) && 1 <= n <= SlabCount(p)
    ensures p.height != 0
    ensures Scaled(BottomFactor(p, trig, 1), Slabs(p, trig, n)) == BottomFactor(p, trig, n + 1)
    decreases n
  {
    if n == 1 {
      ScaleOfFirstSlab(p, trig);
    } else {
      ScaleOfSlabs(p, trig, n - 1);
      ScaleOfNextSlab(p, trig, n);
    }
  }

  /** The scales telescope: the factor at the first slab's bottom, scaled by every
      extrusion of the vase in turn, is the factor one step above the last slab's
      bottom, the top of the vase. */
  lemma ScalesTelescope(p: VaseParams, trig: Trig)
    requires WellFormed(p, trig) && Steps(p) >= 1
    ensures p.height != 0
    ensures Scaled(BottomFactor(p, trig, 1), Build(p, trig).children) == BottomFactor(p, trig, Steps(p) + 1)
  {
    var n := Steps(p);
    assert SlabCount(p) == n;
    assert Build(p, trig).children == Slabs(p, trig, n);
    ScaleOfSlabs(p, trig, n);
  }

  /** Without a pinch nothing is scaled: every extrusion has scale 1 and every slab
      the same star of factor 1. */
  lemma NoPinchNoScaling(p: VaseParams, trig: Trig, s: int)
    requires WellFormed(p, trig) && 1 <= s <= Steps(p) && p.pinch == 0.0
    ensures Slab(p, trig, s).body.body.scale == 1.0
    ensures Slab(p, trig, s).body.body.body == Star(p, trig, 1.0)
  {
    SlabLayout(p, trig, s);
    assert BottomFactor(p, trig, s) == 1.0;
    assert BottomFactor(p, trig, s + 1) == 1.0;
  }

  // ---------------------------------------------------------------- other radii

  /** Slab `s` of a vase with another base radius has the same translation,
      rotation and extrusion, and a polygon with as many vertices. */
  lemma SlabSameFrame(p: VaseParams, trig: Trig, r: real, s: int)
    requires WellFormed(p, trig) && WellFormed(p.(baseRadius := r), trig) && 1 <= s <= Steps(p)
    ensures Steps(p.(baseRadius := r)) == Steps(p)
    ensures SameFrame(Slab(p.(baseRadius := r), trig, s), Slab(p, trig, s))
  {
    var q := p.(baseRadius := r);
    assert Steps(q) == Steps(p);
    SlabLayout(p, trig, s);
    SlabLayout(q, trig, s);
    var a, b := Slab(q, trig, s), Slab(p, trig, s);
    FactorIgnoresBaseRadius(p, trig, r, s);
    FactorIgnoresBaseRadius(p, trig, r, s + 1);
    assert a.body.body.scale == b.body.body.scale;
    assert SameFrame(a.body.body.body, b.body.body.body);
    assert SameFrame(a.body.body, b.body.body);
    assert SameFrame(a.body, b.body);
  }

  /** Changing only the base radius leaves the whole tree in place, every
      translation, rotation and extrusion; only the polygons' radii change. */
  lemma BuildFrameIgnoresBaseRadius(p: VaseParams, trig: Trig, r: real)
    requires WellFormed(p, trig)
    ensures WellFormed(p.(baseRadius := r), trig)
    ensures SameFrame(Build(p.(baseRadius := r), trig), Build(p, trig))
  {
    var q := p.(baseRadius := r);
    WellFormedIgnoresBaseRadius(p, trig, r);
    assert Steps(q) == Steps(p);
    var a, b := Build(q, trig), Build(p, trig);
    forall i | 0 <= i < |a.children|
      ensures SameFrame(a.children[i], b.children[i])
    {
      SlabSameFrame(p, trig, r, i + 1);
    }
  }

  /** Lowering the base radius by `w` lowers both radii of a star of factor `rf`
      by `w * rf`. */
  lemma ShrunkRadius(p: VaseParams, rf: real, w: real, k: int)
    ensures VertexRadius(p.(baseRadius := p.baseRadius - w), rf, k) == VertexRadius(p, rf, k) - w * rf
  {
    var q := p.(baseRadius := p.baseRadius - w);
    if k % 2 == 0 {
      assert VertexRadius(q, rf, k) == (p.baseRadius - w - p.edgeness) * rf;
    } else {
      assert VertexRadius(q, rf, k) == (p.baseRadius - w) * rf;
    }
  }

  /** Lowering the base radius by `w` moves vertex `k` of a star of factor `rf`
      inwards along its own ray by `w * rf`. */
  lemma ShrunkVertex(p: VaseParams, trig: Trig, rf: real, w: real, k: int)
    requires p.edges >= 1 && 0 <= k < 2 * p.edges
    ensures Star(p.(baseRadius := p.baseRadius - w), trig, rf).points[k]
         == Polar(trig, VertexRadius(p, rf, k) - w * rf, Angle(p, trig, k))
  {
    var q := p.(baseRadius := p.baseRadius - w);
    assert Star(q, trig, rf).points[k] == Vertex(q, trig, rf, k);
    assert Angle(q, trig, k) == Angle(p, trig, k);
    ShrunkRadius(p, rf, w, k);
  }

  /** Changing the base radius changes no slab's radius factor. */
  lemma FactorIgnoresBaseRadius(p: VaseParams, trig: Trig, r: real, s: int)
    requires p.height != 0
    ensures BottomFactor(p.(baseRadius := r), trig, s) == BottomFactor(p, trig, s)
  {
    assert SlabHeight(p.(baseRadius := r), s) == SlabHeight(p, s);
    assert HeightDegrees(p.(baseRadius := r), SlabHeight(p, s)) == HeightDegrees(p, SlabHeight(p, s));
  }

  /** Lowering the base radius by `w` (from `p` to `q`) keeps the vase well formed,
      with the same steps, and gives slab `s` the star of the same factor. */
  lemma ShrunkProfile(p: VaseParams, q: VaseParams, trig: Trig, w: real, s: int)
    requires WellFormed(p, trig) && q == p.(baseRadius := p.baseRadius - w)
    requires 1 <= s <= Steps(p)
    ensures WellFormed(q, trig) && Steps(q) == Steps(p)
    ensures p.height != 0
    ensures Slab(q, trig, s).body.body.body == Star(q, trig, BottomFactor(p, trig, s))
  {
    WellFormedIgnoresBaseRadius(p, trig, p.baseRadius - w);
    assert Steps(q) == Steps(p);
    SlabProfile(q, trig, s);
    FactorIgnoresBaseRadius(p, trig, p.baseRadius - w, s);
  }

  /** Lowering the base radius by `w` (from `p` to `q`) moves every vertex of slab
      `s`, whose factor is `rf`, inwards along its own ray by `w * rf`. */
  lemma ShrunkStar(p: VaseParams, q: VaseParams, trig: Trig, w: real, s: int, rf: real, k: int)
    requires WellFormed(p, trig) && q == p.(baseRadius := p.baseRadius - w)
    requires 1 <= s <= Steps(p) && p.edges >= 1 && 0 <= k < 2 * p.edges
    requires p.height != 0 && rf == BottomFactor(p, trig, s)
    ensures WellFormed(q, trig) && Steps(q) == Steps(p)
    ensures Slab(q, trig, s).body.body.body.points[k] == Polar(trig, VertexRadius(p, rf, k) - w * rf, Angle(p, trig, k))
  {
    ShrunkProfile(p, q, trig, w, s);
    ShrunkVertex(p, trig, rf, w, k);
  }
}
