/** `AdditionalCameraData`: the component the custom pipeline attaches to each
    camera. It owns the ray-tracing output texture, the frame index handed to the
    kernel and the camera-to-world matrix seen last. */
module AdditionalCamera {
  import opened RenderCommon

  /** A `RenderTexture`, by its size and format. The pipeline always creates a 2D,
      single-sampled, single-slice texture without depth. */
  datatype RenderTexture = RenderTexture(width: Int32, height: Int32, graphicsFormat: GraphicsFormat, enableRandomWrite: bool)

  /** The output texture for a camera of the given pixel size. */
  function OutputTexture(width: Int32, height: Int32): (t: RenderTexture)
    ensures t.width == width && t.height == height
    ensures t.graphicsFormat == R32G32B32A32_SFloat && t.enableRandomWrite
  {
    RenderTexture(width, height, R32G32B32A32_SFloat, true)
  }

  /** The component's state; `released` records, oldest first, the textures it has
      released. */
  datatype CameraDataState = CameraDataState(
    frameIndex: Int32,
    output: Option<RenderTexture>,
    prevCameraMatrix: Matrix,
    released: seq<RenderTexture>)

  /** The field initialisers of a newly added component. */
  const NewCameraData: CameraDataState := CameraDataState(0, None, Zero, [])

  /** There is no output texture, or it does not have the camera's pixel size. */
  predicate NeedsOutput(s: CameraDataState, width: Int32, height: Int32) {
    s.output.None? || s.output.value.width != width || s.output.value.height != height
  }

  /** The released list after letting go of the current output, if any. */
  function ReleaseOutput(s: CameraDataState): seq<RenderTexture> {
    if s.output.Some? then s.released + [s.output.value] else s.released
  }

  datatype ResourcesOutcome = ResourcesOutcome(state: CameraDataState, changed: bool)

  /** `UpdateCameraResources` for a camera with the given pixel size and
      camera-to-world matrix. */
  function UpdateResourcesState(s: CameraDataState, width: Int32, height: Int32, cameraMatrix: Matrix): ResourcesOutcome {
    if NeedsOutput(s, width, height) then
      ResourcesOutcome(s.(output := Some(OutputTexture(width, height)), released := ReleaseOutput(s)), true)
    else if cameraMatrix != s.prevCameraMatrix then
      ResourcesOutcome(s.(prevCameraMatrix := cameraMatrix), true)
    else
      ResourcesOutcome(s, false)
  }

  /** A missing or mis-sized output is released and replaced by one of exactly the
      camera's size, and the call reports a change; the remembered matrix is left
      as it was. */
  lemma ReallocatesOnSizeMismatch(s: CameraDataState, width: Int32, height: Int32, m: Matrix)
    requires NeedsOutput(s, width, height)
    ensures var u := UpdateResourcesState(s, width, height, m);
      && u.changed && u.state.output == Some(OutputTexture(width, height))
      && !NeedsOutput(u.state, width, height)
      && u.state.prevCameraMatrix == s.prevCameraMatrix && u.state.frameIndex == s.frameIndex
      && u.state.released == (if s.output.Some? then s.released + [s.output.value] else s.released)
  {
  }

  /** With an output of the right size, the call reports a change exactly when the
      matrix differs from the remembered one, and remembers the new matrix. */
  lemma ReportsMatrixChange(s: CameraDataState, width: Int32, height: Int32, m: Matrix)
    requires !NeedsOutput(s, width, height)
    ensures var u := UpdateResourcesState(s, width, height, m);
      && (u.changed <==> m != s.prevCameraMatrix)
      && u.state == s.(prevCameraMatrix := m)
  {
  }

  /** Because the reallocating call skips the matrix, a matrix change is reported on
      the following call. */
  lemma MatrixReportFollowsReallocation(s: CameraDataState, width: Int32, height: Int32, m: Matrix)
    requires NeedsOutput(s, width, height) && m != s.prevCameraMatrix
    ensures var u1 := UpdateResourcesState(s, width, height, m);
      var u2 := UpdateResourcesState(u1.state, width, height, m);
      u1.changed && u2.changed && u2.state.output == u1.state.output && u2.state.prevCameraMatrix == m
  {
    ReallocatesOnSizeMismatch(s, width, height, m);
  }

  /** Whatever the starting state, a camera that keeps its size and matrix stops
      reporting changes by the third call. */
  lemma {:induction false} SettlesWithinTwoCalls(s: CameraDataState, width: Int32, height: Int32, m: Matrix)
    ensures var u1 := UpdateResourcesState(s, width, height, m);
      var u2 := UpdateResourcesState(u1.state, width, height, m);
      var u3 := UpdateResourcesState(u2.state, width, height, m);
      !u3.changed && u3.state == u2.state
  {
    var u1 := UpdateResourcesState(s, width, height, m);
    var u2 := UpdateResourcesState(u1.state, width, height, m);
    if NeedsOutput(s, width, height) {
      ReallocatesOnSizeMismatch(s, width, height, m);
    }
    ReportsMatrixChange(u1.state, width, height, m);
    ReportsMatrixChange(u2.state, width, height, m);
  }

  /** A new component allocates on its first call; its remembered matrix is the zero
      matrix, so the next same-size call with any other matrix reports a change. */
  lemma NewComponentFirstCalls(width: Int32, height: Int32, m: Matrix)
    requires m != Zero
    ensures var u1 := UpdateResourcesState(NewCameraData, width, height, m);
      var u2 := UpdateResourcesState(u1.state, width, height, m);
      u1.changed && u1.state.output == Some(OutputTexture(width, height)) && u1.state.released == []
      && u2.changed && u2.state.prevCameraMatrix == m
  {
  }

  class AdditionalCameraData {
    var frameIndex: Int32
    var rayTracingOutput: Option<RenderTexture>
    var prevCameraMatrix: Matrix
    var released: seq<RenderTexture>
    /** The component is on its camera's game object (added and not destroyed). */
    var attached: bool

    function State(): CameraDataState
      reads this
    {
      CameraDataState(frameIndex, rayTracingOutput, prevCameraMatrix, released)
    }

    /** The component of a game object that does not carry it yet. */
    constructor ()
      ensures State() == NewCameraData && !attached
    {
      frameIndex := 0;
      rayTracingOutput := None;
      prevCameraMatrix := Zero;
      released := [];
      attached := false;
    }

    /** `AddComponent<AdditionalCameraData>()`: the component joins the game
        object with its field initialisers. */
    method Attach()
      modifies this
      ensures attached && State() == NewCameraData
    {
      frameIndex := 0;
      rayTracingOutput := None;
      prevCameraMatrix := Zero;
      released := [];
      attached := true;
    }

    method Start()
      modifies this`frameIndex
      ensures State() == old(State()).(frameIndex := 0)
    {
      frameIndex := 0;
    }

    method UpdateCameraData()
      modifies this`frameIndex
      ensures State() == old(State()).(frameIndex := Inc32(old(frameIndex)))
    {
      frameIndex := Inc32(frameIndex);
    }

    /** `UpdateCameraResources`; the attached camera's pixel size and matrix are
        passed in. */
    method UpdateCameraResources(pixelWidth: Int32, pixelHeight: Int32, cameraToWorldMatrix: Matrix) returns (changed: bool)
      modifies this`rayTracingOutput, this`prevCameraMatrix, this`released
      ensures UpdateResourcesState(old(State()), pixelWidth, pixelHeight, cameraToWorldMatrix) == ResourcesOutcome(State(), changed)
    {
      if rayTracingOutput.None? || rayTracingOutput.value.width != pixelWidth || rayTracingOutput.value.height != pixelHeight {
        if rayTracingOutput.Some? {
          released := released + [rayTracingOutput.value];
        }
        rayTracingOutput := Some(OutputTexture(pixelWidth, pixelHeight));
        return true;
      }
      if cameraToWorldMatrix != prevCameraMatrix {
        prevCameraMatrix := cameraToWorldMatrix;
        return true;
      }
      return false;
    }

    /** `OnDestroy`: the output is released as the component leaves its game
        object. */
    method OnDestroy()
      modifies this
      ensures rayTracingOutput == None && !attached
      ensures State() == old(State()).(output := None, released := ReleaseOutput(old(State())))
    {
      if rayTracingOutput.Some? {
        released := released + [rayTracingOutput.value];
        rayTracingOutput := None;
      }
      attached := false;
    }
  }
}
