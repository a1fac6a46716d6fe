/** The slot layout shared by the three packed parameter vectors of a
    lower-limb transform: some leading slots, then the pelvis rigid pose,
    the hip rotation and the knee rotation. */
module ParameterLayout {
  import opened PySeq

  /** A packed vector read as its four parts. `head` holds the shape-mode
      weights, the uniform scale or the four per-bone scales. */
  datatype Slots = Slots(head: seq<real>, pelvisRigid: seq<real>, hipRot: seq<real>, kneeRot: seq<real>)

  /** The pose parts have the lengths the transform's constructor gives them. */
  predicate PoseShaped(s: Slots)
  {
    |s.pelvisRigid| == 6 && |s.hipRot| == 3 && |s.kneeRot| == 3
  }

  /** np.hstack of the four parts in slot order: what each getter returns. */
  function Pack(s: Slots): (x: seq<real>)
    ensures |x| == |s.head| + |s.pelvisRigid| + |s.hipRot| + |s.kneeRot|
    ensures PoseShaped(s) ==> |x| == |s.head| + 12
  {
    s.head + s.pelvisRigid + s.hipRot + s.kneeRot
  }

  /** What each setter does with its split offset a: the slices v[:a],
      v[a:a+6], v[a+6:a+9] and v[a+9:a+12]. Python clips slices, so a short
      vector gives short parts and a long one loses its tail, and neither
      raises. Packing the parts again gives back exactly the first a+12
      values of v. */
  function Unpack(v: seq<real>, a: nat): (s: Slots)
    ensures |s.head| == Min(a, |v|)
    ensures PoseShaped(s) <==> |v| >= a + 12
    ensures Pack(s) == v[..Min(|v|, a + 12)]
  {
    var s := Slots(Slice(v, 0, a), Slice(v, a, a + 6), Slice(v, a + 6, a + 9), Slice(v, a + 9, a + 12));
    assert Pack(s) == v[..Min(|v|, a + 12)] by {
      var m1, m2, m3, m4 := Min(|v|, a), Min(|v|, a + 6), Min(|v|, a + 9), Min(|v|, a + 12);
      assert v[..m4] == v[..m1] + v[m1..m2] + v[m2..m3] + v[m3..m4];
    }
    s
  }

  /** Unpacking a packed vector at the length of its leading part gives the
      parts back: the layout is a bijection on well-shaped parts. */
  lemma PackThenUnpack(s: Slots)
    requires PoseShaped(s)
    ensures Unpack(Pack(s), |s.head|) == s
  {
    var x, a := Pack(s), |s.head|;
    assert x[..a] == s.head;
    assert x[a..a + 6] == s.pelvisRigid;
    assert x[a + 6..a + 9] == s.hipRot;
    assert x[a + 9..a + 12] == s.kneeRot;
  }

  /** The uniform-scaling layout does not round-trip: the setter sends slot 0
      to the shape-mode weights, so the getter afterwards still shows the old
      scale, and returns v only when v[0] already equals it. */
  lemma UniformScalingSetThenGet(scale: real, v: seq<real>)
    requires |v| == 13
    ensures var u := Unpack(v, 1);
            Pack(Slots([scale], u.pelvisRigid, u.hipRot, u.kneeRot)) == [scale] + v[1..]
    ensures var u := Unpack(v, 1);
            Pack(Slots([scale], u.pelvisRigid, u.hipRot, u.kneeRot)) == v <==> scale == v[0]
  {
    var u := Unpack(v, 1);
    assert u.pelvisRigid == v[1..7] && u.hipRot == v[7..10] && u.kneeRot == v[10..13];
    assert v[1..] == v[1..7] + v[7..10] + v[10..13];
    var x := Pack(Slots([scale], u.pelvisRigid, u.hipRot, u.kneeRot));
    assert x == [scale] + v[1..];
    assert x[0] == scale;
    if scale == v[0] {
      assert v == [v[0]] + v[1..];
    }
  }

  /** The per-bone layout round-trips on 16 values: the four scales taken one
      by one from v[0], ..., v[3] and the pose from Unpack at offset 4 pack
      back to v. */
  lemma PerBoneScalingSetThenGet(v: seq<real>)
    requires |v| == 16
    ensures var u := Unpack(v, 4);
            Pack(Slots([v[0], v[1], v[2], v[3]], u.pelvisRigid, u.hipRot, u.kneeRot)) == v
  {
    var u := Unpack(v, 4);
    assert u.head == v[..4] == [v[0], v[1], v[2], v[3]];
  }
}

/** LLTransformData: the registration parameters as separate fields, with the
    three packed views shapeModelX, uniformScalingX and perBoneScalingX. */
module LLTransform {
  import opened Exceptions
  import opened PySeq
  import opened ParameterLayout

  class LLTransformData {
    var pelvisRigid: seq<real>
    var hipRot: seq<real>
    var kneeRot: seq<real>
    /** The indices of the shape modes in use; only their number matters here. */
    var shapeModes: seq<int>
    var shapeModeWeights: seq<real>
    var uniformScaling: real
    var pelvisScaling: real
    var femurScaling: real
    /** The attribute the constructor creates under this spelling. Nothing
        else reads or writes it. */
    var petallaScaling: real
    /** The attribute the per-bone getter reads and setter writes. None while
        the object has no such attribute, as after construction. */
    var patellaScaling: Option<real>
    var tibfibScaling: real
    /** The caches _shapeModelX, _uniformScalingX and _perBoneScalingX. */
    var shapeModelXCache: Option<seq<real>>
    var uniformScalingXCache: Option<seq<real>>
    var perBoneScalingXCache: Option<seq<real>>

    /** The state the constructor leaves. */
    predicate IsInitial()
      reads this
    {
      pelvisRigid == [0.0, 0.0, 0.0, 0.0, 0.0, 0.0] &&
      hipRot == [0.0, 0.0, 0.0] &&
      kneeRot == [0.0, 0.0, 0.0] &&
      shapeModes == [] && shapeModeWeights == [] &&
      uniformScaling == 1.0 &&
      pelvisScaling == 1.0 && femurScaling == 1.0 && petallaScaling == 1.0 && tibfibScaling == 1.0 &&
      patellaScaling == None &&
      shapeModelXCache == None && uniformScalingXCache == None && perBoneScalingXCache == None
    }

    /** The pose parts have the lengths the constructor gives them. No setter
        enforces this. */
    predicate WellShaped()
      reads this
    {
      |pelvisRigid| == 6 && |hipRot| == 3 && |kneeRot| == 3
    }

    function ShapeModelSlots(): Slots
      reads this
    {
      Slots(shapeModeWeights, pelvisRigid, hipRot, kneeRot)
    }

    function UniformScalingSlots(): Slots
      reads this
    {
      Slots([uniformScaling], pelvisRigid, hipRot, kneeRot)
    }

    function PerBoneScalingSlots(): Slots
      requires patellaScaling.Some?
      reads this
    {
      Slots([pelvisScaling, femurScaling, patellaScaling.value, tibfibScaling], pelvisRigid, hipRot, kneeRot)
    }

    constructor ()
      ensures IsInitial() && WellShaped()
    {
      pelvisRigid := [0.0, 0.0, 0.0, 0.0, 0.0, 0.0];
      hipRot := [0.0, 0.0, 0.0];
      kneeRot := [0.0, 0.0, 0.0];
      shapeModes := [];
      shapeModeWeights := [];
      uniformScaling := 1.0;
      pelvisScaling := 1.0;
      femurScaling := 1.0;
      petallaScaling := 1.0;
      tibfibScaling := 1.0;
      patellaScaling := None;
      shapeModelXCache := None;
      uniformScalingXCache := None;
      perBoneScalingXCache := None;
    }

    /** The shapeModelX getter: weights, then pose, refreshing the cache. */
    method ShapeModelX() returns (x: seq<real>)
      modifies this`shapeModelXCache
      ensures x == Pack(ShapeModelSlots())
      ensures WellShaped() ==> |x| == |shapeModeWeights| + 12
      ensures shapeModelXCache == Some(x)
    {
      x := shapeModeWeights + pelvisRigid + hipRot + kneeRot;
      shapeModelXCache := Some(x);
    }

    /** The shapeModelX setter: splits at the number of shape modes. It leaves
        the scales and shapeModes alone. */
    method SetShapeModelX(value: seq<real>)
      modifies this`shapeModelXCache, this`shapeModeWeights, this`pelvisRigid, this`hipRot, this`kneeRot
      ensures ShapeModelSlots() == Unpack(value, |shapeModes|)
      ensures Pack(ShapeModelSlots()) == value[..Min(|value|, |shapeModes| + 12)]
      ensures WellShaped() <==> |value| >= |shapeModes| + 12
      ensures shapeModelXCache == Some(value)
      ensures shapeModes == old(shapeModes) && uniformScaling == old(uniformScaling)
    {
      var a := |shapeModes|;
      shapeModelXCache := Some(value);
      shapeModeWeights := Slice(value, 0, a);
      pelvisRigid := Slice(value, a, a + 6);
      hipRot := Slice(value, a + 6, a + 9);
      kneeRot := Slice(value, a + 9, a + 12);
    }

    /** The uniformScalingX getter: the uniform scale, then pose. */
    method UniformScalingX() returns (x: seq<real>)
      modifies this`uniformScalingXCache
      ensures x == Pack(UniformScalingSlots())
      ensures |x| > 0 && x[0] == uniformScaling
      ensures WellShaped() ==> |x| == 13
      ensures uniformScalingXCache == Some(x)
    {
      x := [uniformScaling] + pelvisRigid + hipRot + kneeRot;
      uniformScalingXCache := Some(x);
    }

    /** The uniformScalingX setter: splits at offset 1, but sends the first
        slot to shapeModeWeights; uniformScaling keeps its value. */
    method SetUniformScalingX(value: seq<real>)
      modifies this`uniformScalingXCache, this`shapeModeWeights, this`pelvisRigid, this`hipRot, this`kneeRot
      ensures ShapeModelSlots() == Unpack(value, 1)
      ensures WellShaped() <==> |value| >= 13
      ensures uniformScaling == old(uniformScaling)
      ensures uniformScalingXCache == Some(value)
    {
      var a := 1;
      uniformScalingXCache := Some(value);
      shapeModeWeights := Slice(value, 0, a);
      pelvisRigid := Slice(value, a, a + 6);
      hipRot := Slice(value, a + 6, a + 9);
      kneeRot := Slice(value, a + 9, a + 12);
    }

    /** The perBoneScalingX getter: the four per-bone scales, then pose. It
        raises AttributeError, writing nothing, while patellaScaling does not
        exist. */
    method PerBoneScalingX() returns (r: Result<seq<real>>)
      modifies this`perBoneScalingXCache
      ensures patellaScaling.None? ==>
                r == Err(AttributeError("patellaScaling")) && perBoneScalingXCache == old(perBoneScalingXCache)
      ensures patellaScaling.Some? ==>
                r == Ok(Pack(PerBoneScalingSlots())) && perBoneScalingXCache == Some(r.value)
      ensures r.Ok? && WellShaped() ==> |r.value| == 16
    {
      if patellaScaling.None? {
        return Err(AttributeError("patellaScaling"));
      }
      var x := [pelvisScaling, femurScaling, patellaScaling.value, tibfibScaling] + pelvisRigid + hipRot + kneeRot;
      perBoneScalingXCache := Some(x);
      r := Ok(x);
    }

    /** The perBoneScalingX setter: value[0] .. value[3] into the four scales
        in turn, then the pose from offset 4. Indexing past the end raises
        IndexError after the earlier assignments have taken effect. */
    method SetPerBoneScalingX(value: seq<real>) returns (r: Outcome)
      modifies this`perBoneScalingXCache, this`pelvisScaling, this`femurScaling, this`patellaScaling,
               this`tibfibScaling, this`pelvisRigid, this`hipRot, this`kneeRot
      ensures r == if |value| >= 4 then Pass else Fail(IndexError)
      ensures perBoneScalingXCache == Some(value)
      ensures pelvisScaling == if |value| > 0 then value[0] else old(pelvisScaling)
      ensures femurScaling == if |value| > 1 then value[1] else old(femurScaling)
      ensures patellaScaling == if |value| > 2 then Some(value[2]) else old(patellaScaling)
      ensures tibfibScaling == if |value| > 3 then value[3] else old(tibfibScaling)
      ensures |value| >= 4 ==>
                var u := Unpack(value, 4);
                pelvisRigid == u.pelvisRigid && hipRot == u.hipRot && kneeRot == u.kneeRot
      ensures |value| < 4 ==>
                pelvisRigid == old(pelvisRigid) && hipRot == old(hipRot) && kneeRot == old(kneeRot)
      ensures |value| >= 4 ==> (WellShaped() <==> |value| >= 16)
      ensures shapeModeWeights == old(shapeModeWeights) && uniformScaling == old(uniformScaling)
    {
      var a := 4;
      perBoneScalingXCache := Some(value);
      if |value| <= 0 { return Fail(IndexError); }
      pelvisScaling := value[0];
      if |value| <= 1 { return Fail(IndexError); }
      femurScaling := value[1];
      if |value| <= 2 { return Fail(IndexError); }
      patellaScaling := Some(value[2]);
      if |value| <= 3 { return Fail(IndexError); }
      tibfibScaling := value[3];
      pelvisRigid := Slice(value, a, a + 6);
      hipRot := Slice(value, a + 6, a + 9);
      kneeRot := Slice(value, a + 9, a + 12);
      r := Pass;
    }
  }

  /** On a fresh transform the shapeModelX getter gives the 12 zeros of the
      pose, as there are no shape-mode weights yet. */
  method FreshShapeModelX() returns (x: seq<real>)
    ensures x == [0.0, 0.0, 0.0, 0.0, 0.0, 0.0, 0.0, 0.0, 0.0, 0.0, 0.0, 0.0]
  {
    var t := new LLTransformData();
    x := t.ShapeModelX();
  }

  /** Setting shapeModelX to a vector of |shapeModes| + 12 values and reading
      it back gives that vector. */
  method ShapeModelXSetThenGet(t: LLTransformData, v: seq<real>) returns (x: seq<real>)
    requires |v| == |t.shapeModes| + 12
    modifies t
    ensures x == v
    ensures t.WellShaped() && t.shapeModes == old(t.shapeModes)
  {
    t.SetShapeModelX(v);
    x := t.ShapeModelX();
  }

  /** Setting uniformScalingX and reading it back shows the old uniform scale
      in slot 0; only the other twelve slots come back. */
  method UniformScalingXSetThenGet(t: LLTransformData, v: seq<real>) returns (x: seq<real>)
    requires |v| == 13
    modifies t
    ensures x == [old(t.uniformScaling)] + v[1..]
    ensures x == v <==> v[0] == old(t.uniformScaling)
    ensures t.shapeModeWeights == [v[0]]
  {
    t.SetUniformScalingX(v);
    x := t.UniformScalingX();
    UniformScalingSetThenGet(t.uniformScaling, v);
  }

  /** Setting perBoneScalingX to 16 values and reading it back gives them. */
  method PerBoneScalingXSetThenGet(t: LLTransformData, v: seq<real>) returns (r: Result<seq<real>>)
    requires |v| == 16
    modifies t
    ensures r == Ok(v)
    ensures t.shapeModeWeights == old(t.shapeModeWeights) && t.uniformScaling == old(t.uniformScaling)
  {
    var _ := t.SetPerBoneScalingX(v);
    r := t.PerBoneScalingX();
    PerBoneScalingSetThenGet(v);
  }

  /** On a fresh transform the perBoneScalingX getter raises AttributeError;
      once the setter has reached value[2], even if it then raised, the getter
      succeeds, and after a full 16-value set it returns that vector. */
  method FreshPerBoneScalingX(v: seq<real>) returns (before: Result<seq<real>>, after: Result<seq<real>>)
    requires |v| >= 3
    ensures before == Err(AttributeError("patellaScaling"))
    ensures after.Ok?
    ensures |v| == 16 ==> after == Ok(v)
  {
    var t := new LLTransformData();
    before := t.PerBoneScalingX();
    var _ := t.SetPerBoneScalingX(v);
    after := t.PerBoneScalingX();
    if |v| == 16 {
      PerBoneScalingSetThenGet(v);
    }
  }
}

/** LLStepData: the registration step's state, the registration-mode and
    target-landmark setters, and the dispatch of register to the bound
    strategy. */
module LLStep {
  import opened Exceptions
  import opened LLTransform

  /** The function bound to _register: none yet, or one of the three
      module-level registration functions. */
  datatype Strategy = NoStrategy | ShapeModel | UniformScaling | PerBoneScaling

  /** The class attribute _registrationModes. */
  const RegistrationModes: seq<string> := ["shapemodel", "uniformscaling", "perbonescaling", "manual"]

  /** The binding the registrationMode setter's if/elif chain leaves in place
      of `current`. The chain tests 'uniformscale', which no accepted mode
      equals. */
  function Rebind(mode: string, current: Strategy): (r: Strategy)
    ensures r != current ==> mode == "shapemodel" || mode == "uniformscale" || mode == "perbonescaling"
    ensures r == NoStrategy ==> current == NoStrategy
  {
    if mode == "shapemodel" then ShapeModel
    else if mode == "uniformscale" then UniformScaling
    else if mode == "perbonescaling" then PerBoneScaling
    else current
  }

  /** Of the four accepted modes only 'shapemodel' and 'perbonescaling'
      rebind; 'uniformscaling' and 'manual' keep the previous binding, so the
      uniform-scaling strategy is never bound by the setter. */
  lemma AcceptedModeBindings(mode: string, current: Strategy)
    requires mode in RegistrationModes
    ensures mode == "shapemodel" ==> Rebind(mode, current) == ShapeModel
    ensures mode == "perbonescaling" ==> Rebind(mode, current) == PerBoneScaling
    ensures mode == "uniformscaling" || mode == "manual" ==> Rebind(mode, current) == current
    ensures Rebind(mode, current) != current <==> (mode == "shapemodel" && current != ShapeModel) || (mode == "perbonescaling" && current != PerBoneScaling)
    ensures Rebind(mode, current) == UniformScaling ==> current == UniformScaling
  {
  }

  /** The stub _registerUniformScaling: raises whatever the step holds. */
  function RegisterUniformScaling(lldata: LLStepData): (r: Outcome)
    ensures r == Fail(NotImplementedError)
  {
    Fail(NotImplementedError)
  }

  /** The stub _registerPerBoneScaling: raises whatever the step holds. */
  function RegisterPerBoneScaling(lldata: LLStepData): (r: Outcome)
    ensures r == Fail(NotImplementedError)
  {
    Fail(NotImplementedError)
  }

  /** np.array(value).shape for a list of rows of reals: (n, m) when all n
      rows have the same length m, (n,) for ragged rows (an array of
      objects), and (0,) for the empty list. */
  function Shape(value: seq<seq<real>>): (shape: seq<nat>)
    ensures |shape| > 0 && shape[0] == |value|
    ensures |shape| == 2 <==> |value| > 0 && forall i :: 0 <= i < |value| ==> |value[i]| == |value[0]|
    ensures |shape| == 2 ==> shape[1] == |value[0]|
  {
    if |value| > 0 && forall i :: 0 <= i < |value| ==> |value[i]| == |value[0]| then [|value|, |value[0]|]
    else [|value|]
  }

  /** The targetLandmarks setter's test v.shape == (7, 3): exactly seven rows
      of three coordinates. */
  predicate IsLandmarkArray(value: seq<seq<real>>): (b: bool)
    ensures b <==> |value| == 7 && forall i :: 0 <= i < |value| ==> |value[i]| == 3
  {
    Shape(value) == [7, 3]
  }

  class LLStepData {
    /** The transform T. */
    var T: LLTransformData
    /** _targetLandmarks; None until a (7, 3) array is set. */
    var targetLandmarksValue: Option<seq<seq<real>>>
    /** _registrationMode; None while the attribute does not exist. */
    var registrationModeValue: Option<string>
    /** _register. */
    var strategy: Strategy
    var mWeight: real

    constructor ()
      ensures fresh(T) && T.IsInitial()
      ensures targetLandmarksValue == None && registrationModeValue == None
      ensures strategy == NoStrategy && mWeight == 0.0
    {
      T := new LLTransformData();
      targetLandmarksValue := None;
      registrationModeValue := None;
      strategy := NoStrategy;
      mWeight := 0.0;
    }

    /** The registrationMode getter; the constructor does not create
        _registrationMode, so it raises AttributeError until a mode is set. */
    method RegistrationMode() returns (r: Result<string>)
      ensures registrationModeValue.None? ==> r == Err(AttributeError("_registrationMode"))
      ensures registrationModeValue.Some? ==> r == Ok(registrationModeValue.value)
    {
      if registrationModeValue.None? {
        return Err(AttributeError("_registrationMode"));
      }
      r := Ok(registrationModeValue.value);
    }

    /** The registrationMode setter: an accepted mode is stored and the
        dispatch chain runs; any other string raises ValueError and changes
        nothing. */
    method SetRegistrationMode(value: string) returns (r: Outcome)
      modifies this`registrationModeValue, this`strategy
      ensures r == if value in RegistrationModes then Pass else Fail(ValueError)
      ensures r.Pass? ==> registrationModeValue == Some(value) && strategy == Rebind(value, old(strategy))
      ensures r.Fail? ==> registrationModeValue == old(registrationModeValue) && strategy == old(strategy)
    {
      if value in RegistrationModes {
        registrationModeValue := Some(value);
        if value == "shapemodel" {
          strategy := ShapeModel;
        } else if value == "uniformscale" {
          strategy := UniformScaling;
        } else if value == "perbonescaling" {
          strategy := PerBoneScaling;
        }
        r := Pass;
      } else {
        r := Fail(ValueError);
      }
    }

    /** The targetLandmarks setter: stores a (7, 3) array, and raises
        ValueError keeping the previous value for any other shape. */
    method SetTargetLandmarks(value: seq<seq<real>>) returns (r: Outcome)
      modifies this`targetLandmarksValue
      ensures r == if IsLandmarkArray(value) then Pass else Fail(ValueError)
      ensures targetLandmarksValue == if IsLandmarkArray(value) then Some(value) else old(targetLandmarksValue)
    {
      if !IsLandmarkArray(value) {
        return Fail(ValueError);
      }
      targetLandmarksValue := Some(value);
      r := Pass;
    }

    /** register: calls whatever _register holds. With nothing bound the call
        raises TypeError; the uniform-scaling and per-bone stubs raise
        NotImplementedError. The shape-model strategy drives the external
        fitter; what that call does is the parameter shapeModelOutcome. */
    method Register(shapeModelOutcome: Outcome) returns (r: Outcome)
      ensures strategy == NoStrategy ==> r == Fail(TypeError)
      ensures strategy == ShapeModel ==> r == shapeModelOutcome
      ensures strategy == UniformScaling || strategy == PerBoneScaling ==> r == Fail(NotImplementedError)
      ensures r.Pass? ==> strategy == ShapeModel && shapeModelOutcome.Pass?
    {
      match strategy
      case NoStrategy => r := Fail(TypeError);
      case ShapeModel => r := shapeModelOutcome;
      case UniformScaling => r := RegisterUniformScaling(this);
      case PerBoneScaling => r := RegisterPerBoneScaling(this);
    }
  }

  /** The string mismatch seen by a caller: a fresh step has nothing to call;
      selecting 'uniformscaling' still leaves nothing to call; after
      'shapemodel' then 'manual' the shape-model strategy is still bound, so
      register does whatever that strategy does. */
  method ModeDispatchScenario(shapeModelOutcome: Outcome)
    returns (initial: Outcome, afterUniform: Outcome, boundAfterManual: Strategy, afterManual: Outcome)
    ensures initial == Fail(TypeError)
    ensures afterUniform == Fail(TypeError)
    ensures boundAfterManual == ShapeModel
    ensures afterManual == shapeModelOutcome
  {
    var d := new LLStepData();
    initial := d.Register(shapeModelOutcome);
    var _ := d.SetRegistrationMode("uniformscaling");
    afterUniform := d.Register(shapeModelOutcome);
    var _ := d.SetRegistrationMode("shapemodel");
    var _ := d.SetRegistrationMode("manual");
    boundAfterManual := d.strategy;
    afterManual := d.Register(shapeModelOutcome);
  }

  /** A rejected mode string raises ValueError and keeps the bound strategy:
      after 'perbonescaling' and then 'uniform', register still reaches the
      per-bone stub. */
  method RejectedModeScenario(shapeModelOutcome: Outcome) returns (rejected: Outcome, mode: Result<string>, call: Outcome)
    ensures rejected == Fail(ValueError)
    ensures mode == Ok("perbonescaling")
    ensures call == Fail(NotImplementedError)
  {
    var d := new LLStepData();
    var _ := d.SetRegistrationMode("perbonescaling");
    rejected := d.SetRegistrationMode("uniform");
    mode := d.RegistrationMode();
    call := d.Register(shapeModelOutcome);
  }

  /** Target landmarks of the wrong shape are refused, and a fresh step keeps
      None. */
  method RejectedLandmarksScenario(value: seq<seq<real>>) returns (r: Outcome, stored: Option<seq<seq<real>>>)
    requires !IsLandmarkArray(value)
    ensures r == Fail(ValueError)
    ensures stored == None
  {
    var d := new LLStepData();
    r := d.SetTargetLandmarks(value);
    stored := d.targetLandmarksValue;
  }
}
