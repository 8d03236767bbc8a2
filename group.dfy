/** `Group` of vase.rb: the printable vase (an outer shell minus an inner shell
    that keeps a floor) and the plate cut from it, both built from a parameter
    hash; and the script's constants `VASE_KEYS` and `BASE_PARAMS`. */
module Group {
  import opened RubyMath
  import opened Solid
  import opened SolidVase
  import opened VaseProperties

  datatype Option<T> = None | Some(value: T)

  /** The symbols the script uses as hash keys; any other symbol is `Other`. */
  datatype Key =
    | StepSize | Height | Twist | BaseRadius | Edges | Edgeness | Pinch
    | WallAndBaseThickness | Radius | Other(name: string)

  /** A Ruby hash from symbols to numbers. */
  type Params = map<Key, Num>

  /** `VASE_KEYS`: the struct's members, in declaration order. */
  const VaseKeys: seq<Key> := [StepSize, Height, Twist, BaseRadius, Edges, Edgeness, Pinch]

  /** `BASE_PARAMS`. */
  const BaseParams: Params := map[
    StepSize := Int(10),
    Height := Int(100),
    Twist := Int(90),
    BaseRadius := Int(50),
    Edges := Int(12),
    Edgeness := Int(5),
    Pinch := Float(0.3),
    WallAndBaseThickness := Float(1.2)]

  /** `Hash#slice(*keys)`: the entries whose keys are listed, unchanged. */
  function SliceKeys(h: Params, keys: seq<Key>): (r: Params)
    ensures forall k :: k in r <==> k in h && k in keys
    ensures forall k :: k in r ==> r[k] == h[k]
  {
    map k | k in h && k in keys :: h[k]
  }

  /** The hash names every member of the struct and nothing else. */
  predicate ExactlyMembers(h: Params)
  {
    (forall k :: k in h ==> k in VaseKeys) &&
    StepSize in h && Height in h && Twist in h && BaseRadius in h &&
    Edges in h && Edgeness in h && Pinch in h
  }

  /** `SolidVase.new(hash)` as far as `build` can use it: a hash with a key that is
      not a member raises (`keyword_init`), a missing member is `nil` and makes
      `build` raise, and the members `build` counts with must be integers. */
  function NewSolidVase(h: Params): (r: Option<VaseParams>)
    ensures r.Some? <==> ExactlyMembers(h) && h[StepSize].Int? && h[Height].Int? && h[Edges].Int?
    ensures r.Some? ==>
      r.value.stepSize == h[StepSize].i && r.value.height == h[Height].i &&
      r.value.edges == h[Edges].i && r.value.twist == AsReal(h[Twist]) &&
      r.value.baseRadius == AsReal(h[BaseRadius]) &&
      r.value.edgeness == AsReal(h[Edgeness]) && r.value.pinch == AsReal(h[Pinch])
  {
    if ExactlyMembers(h) && h[StepSize].Int? && h[Height].Int? && h[Edges].Int? then
      Some(VaseParams(h[StepSize].i, h[Height].i, AsReal(h[Twist]), AsReal(h[BaseRadius]),
                      h[Edges].i, AsReal(h[Edgeness]), AsReal(h[Pinch])))
    else
      None
  }

  /** The parameters of the outer shell, `SolidVase.new(params.slice(*VASE_KEYS))`. */
  function OuterParams(h: Params): Option<VaseParams>
  {
    NewSolidVase(SliceKeys(h, VaseKeys))
  }

  /** The hash of the inner shell, `params.slice(*VASE_KEYS).merge(base_radius:
      params[:base_radius] - params[:wall_and_base_thickness])`. */
  function InnerHash(h: Params): Params
    requires BaseRadius in h && WallAndBaseThickness in h
  {
    SliceKeys(h, VaseKeys)[BaseRadius := Sub(h[BaseRadius], h[WallAndBaseThickness])]
  }

  /** What `vase` needs but never checks: if the outer shell's parameters are there
      and its step is non-zero (a zero step raises), the shell is well formed. */
  predicate VaseDefined(h: Params, trig: Trig)
  {
    match OuterParams(h)
    case None => true
    case Some(p) => p.stepSize != 0 ==> WellFormed(p, trig)
  }

  /** The inner shell is the outer one with its base radius lowered by the wall
      thickness; nothing else changes. */
  lemma InnerIsThinner(h: Params)
    requires OuterParams(h).Some? && WallAndBaseThickness in h
    ensures BaseRadius in h
    ensures NewSolidVase(InnerHash(h))
         == Some(OuterParams(h).value.(baseRadius := OuterParams(h).value.baseRadius - AsReal(h[WallAndBaseThickness])))
  {
    var s := SliceKeys(h, VaseKeys);
    assert BaseRadius in s;
    var t := InnerHash(h);
    assert t[StepSize] == s[StepSize] && t[Height] == s[Height] && t[Edges] == s[Edges];
    assert t[Twist] == s[Twist] && t[Edgeness] == s[Edgeness] && t[Pinch] == s[Pinch];
  }

  /** The parameters of the inner shell, `SolidVase.new(` the inner hash `)`: they
      exist whenever the outer shell's do and the hash names a wall thickness. */
  function InnerParams(h: Params): (q: VaseParams)
    requires OuterParams(h).Some? && WallAndBaseThickness in h
    ensures q == OuterParams(h).value.(baseRadius := OuterParams(h).value.baseRadius - AsReal(h[WallAndBaseThickness]))
  {
    InnerIsThinner(h);
    NewSolidVase(InnerHash(h)).value
  }

  /** The cylinder cut out of the inner shell, so that the vase keeps a floor:
      `translate z: step_size` around a centred cylinder of radius `base_radius * 2`
      and height `wall_and_base_thickness`. */
  function FloorCut(h: Params): SolidOp
    requires StepSize in h && BaseRadius in h && WallAndBaseThickness in h
  {
    Translate(AsReal(h[StepSize]), Cylinder(AsReal(Mul(h[BaseRadius], Int(2))), AsReal(h[WallAndBaseThickness]), true))
  }

  /** `Group.vase(params)`: the outer shell minus (the inner shell minus the floor
      cut). `None` when Ruby raises: a missing or non-integer member, a key
      missing from the hash, or a zero step. */
  function Vase(h: Params, trig: Trig): (r: Option<SolidOp>)
    requires VaseDefined(h, trig)
    ensures r.Some? <==> OuterParams(h).Some? && WallAndBaseThickness in h && OuterParams(h).value.stepSize != 0
    ensures r.Some? ==>
      r.value.Difference? && r.value.base == Build(OuterParams(h).value, trig) &&
      r.value.cut.Difference? && r.value.cut.cut == FloorCut(h)
    ensures r.Some? ==> WellFormed(InnerParams(h), trig) && r.value.cut.base == Build(InnerParams(h), trig)
  {
    var outer := OuterParams(h);
    if outer.None? || WallAndBaseThickness !in h || outer.value.stepSize == 0 then
      None
    else
      var p := outer.value;
      WellFormedIgnoresBaseRadius(p, trig, p.baseRadius - AsReal(h[WallAndBaseThickness]));
      Some(Difference(Build(p, trig), Difference(Build(InnerParams(h), trig), FloorCut(h))))
  }

  /** Corollary of `Vase`'s contract: the inner shell of a vase is the vase of the
      inner parameters. */
  lemma InnerShell(h: Params, trig: Trig)
    requires VaseDefined(h, trig) && Vase(h, trig).Some?
    ensures WellFormed(InnerParams(h), trig)
    ensures Vase(h, trig).value.cut.base == Build(InnerParams(h), trig)
  {
    var p := OuterParams(h).value;
    WellFormedIgnoresBaseRadius(p, trig, p.baseRadius - AsReal(h[WallAndBaseThickness]));
  }

  /** The shells line up: the inner shell's slabs sit exactly where the outer
      shell's do, with the same rotations, twists and scales. */
  lemma ShellsShareFrame(h: Params, trig: Trig)
    requires VaseDefined(h, trig) && Vase(h, trig).Some?
    ensures SameFrame(Vase(h, trig).value.cut.base, Vase(h, trig).value.base)
  {
    var p := OuterParams(h).value;
    var r := p.baseRadius - AsReal(h[WallAndBaseThickness]);
    InnerShell(h, trig);
    ShellsOfFrame(Vase(h, trig).value, p, trig, r);
  }

  /** A difference of a shell and a difference whose base is the same vase with
      another base radius: its two shells line up. */
  lemma ShellsOfFrame(v: SolidOp, p: VaseParams, trig: Trig, r: real)
    requires WellFormed(p, trig) && WellFormed(p.(baseRadius := r), trig)
    requires v.Difference? && v.base == Build(p, trig)
    requires v.cut.Difference? && v.cut.base == Build(p.(baseRadius := r), trig)
    ensures SameFrame(v.cut.base, v.base)
  {
    BuildFrameIgnoresBaseRadius(p, trig, r);
  }

  /** A key outside `VASE_KEYS` does not reach the struct: merging one leaves the
      slice unchanged. */
  lemma SliceIgnoresOtherKeys(h: Params, k: Key, v: Num)
    requires k !in VaseKeys
    ensures SliceKeys(h[k := v], VaseKeys) == SliceKeys(h, VaseKeys)
  {
  }

  /** Without the slice the struct refuses the hash: the wall thickness is not a
      member. */
  lemma UnslicedHashRaises(h: Params)
    requires WallAndBaseThickness in h
    ensures NewSolidVase(h) == None
  {
    assert WallAndBaseThickness !in VaseKeys;
  }

  /** Only the seven members, the wall thickness and their kinds decide whether
      `vase` succeeds: any other key, `radius` included, changes nothing. */
  lemma VaseIgnoresOtherKeys(h: Params, trig: Trig, k: Key, v: Num)
    requires k !in VaseKeys && k != WallAndBaseThickness && VaseDefined(h, trig)
    ensures VaseDefined(h[k := v], trig)
    ensures Vase(h[k := v], trig) == Vase(h, trig)
  {
    SliceIgnoresOtherKeys(h, k, v);
    var g := h[k := v];
    assert OuterParams(g) == OuterParams(h);
    if Vase(h, trig).Some? {
      assert g[StepSize] == h[StepSize] && g[BaseRadius] == h[BaseRadius] && g[WallAndBaseThickness] == h[WallAndBaseThickness];
      assert FloorCut(g) == FloorCut(h);
      assert InnerHash(g) == InnerHash(h);
    }
  }

  /** In particular the `radius` key that `plate` merges in changes nothing. */
  lemma VaseIgnoresRadius(h: Params, trig: Trig, v: Num)
    requires VaseDefined(h, trig)
    ensures VaseDefined(h[Radius := v], trig)
    ensures Vase(h[Radius := v], trig) == Vase(h, trig)
  {
    VaseIgnoresOtherKeys(h, trig, Radius, v);
  }

  /** The struct `BASE_PARAMS` makes. */
  const BaseVaseParams: VaseParams := VaseParams(10, 100, 90.0, 50.0, 12, 5.0, 0.3)

  /** The parameters `BASE_PARAMS` gives the struct. */
  lemma BaseOuterParams()
    ensures OuterParams(BaseParams) == Some(BaseVaseParams)
  {
    var s := SliceKeys(BaseParams, VaseKeys);
    assert ExactlyMembers(s);
    assert s[StepSize] == Int(10) && s[Height] == Int(100) && s[Edges] == Int(12);
    assert s[Twist] == Int(90) && s[BaseRadius] == Int(50);
    assert s[Edgeness] == Int(5) && s[Pinch] == Float(0.3);
  }

  /** `BASE_PARAMS` builds, on any trigonometry with a bounded sine. */
  lemma BaseParamsDefined(trig: Trig)
    requires SineBounded(trig)
    ensures VaseDefined(BaseParams, trig)
    ensures Vase(BaseParams, trig).Some?
  {
    BaseOuterParams();
    SmallPinchWellFormed(BaseVaseParams, trig);
  }

  /** The hash `plate` hands to `vase`: `BASE_PARAMS` merged with a `radius` of
      `base_radius + 2 * wall_and_base_thickness`. */
  function PlateParams(): Params
  {
    BaseParams[Radius := Add(BaseParams[BaseRadius], Mul(Int(2), BaseParams[WallAndBaseThickness]))]
  }

  /** The vase of the merged hash is the default vase. */
  lemma PlateVase(trig: Trig)
    requires SineBounded(trig)
    ensures VaseDefined(BaseParams, trig) && VaseDefined(PlateParams(), trig)
    ensures Vase(BaseParams, trig).Some?
    ensures Vase(PlateParams(), trig) == Vase(BaseParams, trig)
  {
    BaseParamsDefined(trig);
    var v := Add(BaseParams[BaseRadius], Mul(Int(2), BaseParams[WallAndBaseThickness]));
    VaseIgnoresRadius(BaseParams, trig, v);
  }

  /** `Group.plate`: a centred cylinder of radius `base_radius * 2` and height 30
      intersected with the vase of the merged hash. */
  function Plate(trig: Trig): (r: SolidOp)
    requires SineBounded(trig)
    ensures r.Intersection? && r.left == Cylinder(100.0, 30.0, true)
  {
    assert AsReal(Mul(BaseParams[BaseRadius], Int(2))) == 100.0;
    PlateVase(trig);
    Intersection(Cylinder(AsReal(Mul(BaseParams[BaseRadius], Int(2))), 30.0, true), Vase(PlateParams(), trig).value)
  }

  /** The merged `radius` is never read: the slice drops it, so the plate is the
      default vase, clipped. */
  lemma PlateIsClippedBaseVase(trig: Trig)
    requires SineBounded(trig)
    ensures VaseDefined(BaseParams, trig) && Vase(BaseParams, trig).Some?
    ensures Plate(trig) == Intersection(Cylinder(100.0, 30.0, true), Vase(BaseParams, trig).value)
  {
    PlateVase(trig);
  }

  /** The slabs of the default vase: ten of height 10 turning 9 degrees each;
      slab 5 sits at z = 50, turned back by 45 degrees. */
  lemma BaseSlabs(trig: Trig)
    requires SineBounded(trig)
    ensures WellFormed(BaseVaseParams, trig)
    ensures |Build(BaseVaseParams, trig).children| == 10
    ensures Build(BaseVaseParams, trig).children[4].z == 50.0
    ensures Build(BaseVaseParams, trig).children[4].body.z == -45.0
    ensures Build(BaseVaseParams, trig).children[4].body.body.twist == 9.0
  {
    var p := BaseVaseParams;
    SmallPinchWellFormed(p, trig);
    assert Steps(p) == 10;
    SlabLayout(p, trig, 5);
    assert SlabRotation(p, 5) == -45.0;
  }

  /** The default vase is built from those slabs, with its floor cut at z = 10. */
  lemma BaseVaseShape(trig: Trig)
    requires SineBounded(trig)
    ensures VaseDefined(BaseParams, trig) && Vase(BaseParams, trig).Some?
    ensures WellFormed(BaseVaseParams, trig)
    ensures Vase(BaseParams, trig).value.base == Build(BaseVaseParams, trig)
    ensures Vase(BaseParams, trig).value.cut.cut == Translate(10.0, Cylinder(100.0, 1.2, true))
  {
    BaseParamsDefined(trig);
    BaseOuterParams();
    BaseFloorCut();
  }

  /** The floor cut of `BASE_PARAMS`: at z = 10, radius 100, 1.2 high. */
  lemma BaseFloorCut()
    ensures FloorCut(BaseParams) == Translate(10.0, Cylinder(100.0, 1.2, true))
  {
    assert BaseParams[StepSize] == Int(10) && BaseParams[BaseRadius] == Int(50);
    assert BaseParams[WallAndBaseThickness] == Float(1.2);
  }
}
