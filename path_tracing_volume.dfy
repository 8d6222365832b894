/** The `PathTracing` volume component: the configuration record the URP pass and
    its injector read each frame. */
module PathTracingVolume {
  import opened RenderCommon

  /** `MinIntParameter`: a stored value is never below the parameter's minimum. */
  function ClampToMin(value: Int32, min: Int32): (r: Int32)
    ensures r >= min
    ensures value >= min ==> r == value
    ensures value < min ==> r == min
  {
    if value < min then min else value
  }

  datatype PathTracing = PathTracing(
    enable: bool,
    envTexture: Option<TextureRef>,
    activeCamera: CameraTypeMask,
    bounceCount: Int32,
    maximumSamples: Int32,
    accumulation: bool,
    restir: bool,
    clearRestirBuffer: bool,
    debugMode: bool)
  {
    /** What the two `MinIntParameter` fields guarantee of their values. */
    predicate WellFormed() {
      bounceCount >= 0 && maximumSamples >= 1
    }

    /** `IsActive()`. */
    predicate IsActive() {
      enable
    }

    /** Assigning `maximumSamples.value`. */
    function WithMaximumSamples(value: Int32): (r: PathTracing)
      requires WellFormed()
      ensures r.WellFormed() && r.maximumSamples == ClampToMin(value, 1)
      ensures r == this.(maximumSamples := r.maximumSamples)
    {
      this.(maximumSamples := ClampToMin(value, 1))
    }

    /** Assigning `bounceCount.value`. */
    function WithBounceCount(value: Int32): (r: PathTracing)
      requires WellFormed()
      ensures r.WellFormed() && r.bounceCount == ClampToMin(value, 0)
      ensures r == this.(bounceCount := r.bounceCount)
    {
      this.(bounceCount := ClampToMin(value, 0))
    }
  }

  /** The field initialisers. */
  const Defaults: PathTracing := PathTracing(
    enable := false,
    envTexture := None,
    activeCamera := Game,
    bounceCount := 8,
    maximumSamples := 2048,
    accumulation := true,
    restir := false,
    clearRestirBuffer := false,
    debugMode := false)

  /** A freshly created component is well formed, inactive, accumulates, and
      renders only game cameras. */
  lemma DefaultsAreWellFormedAndInactive()
    ensures Defaults.WellFormed() && !Defaults.IsActive()
    ensures Defaults.accumulation && !Defaults.restir && !Defaults.clearRestirBuffer && !Defaults.debugMode
    ensures Defaults.maximumSamples == 2048 && Defaults.bounceCount == 8 && Defaults.envTexture == None
    ensures Defaults.activeCamera == Game && CameraSelected(Game, Defaults.activeCamera)
    ensures !CameraSelected(VR, Defaults.activeCamera) && !CameraSelected(Reflection, Defaults.activeCamera)
    ensures !CameraSelected(SceneView, Defaults.activeCamera) && !CameraSelected(Preview, Defaults.activeCamera)
  {
  }
}
