/** ClothRenderer (clcloth/main.cpp:291-350, 413-488, 551-583, 648-665) without its GL and
    GLUT calls: keyboard handling, the frame-paced physics update, the quad stream of
    renderCloth and the debug line. Clock readings are parameters. */
module Renderer {
  import opened ClothConfig
  import opened ClothLayout
  import opened Pipeline
  import opened ClothHost
  import opened FrameControl
  import DebugText

  /** The clock readings (ms since start) display takes, in the order it takes them. */
  datatype FrameClock = FrameClock(time: int, physicsDone: int, transferStart: int, transferDone: int,
                                   renderStart: int, renderDone: int)

  /** The (normal, vertex) pair renderCloth sends for corner k of the quad at loop indices (x, y). */
  function QuadVertex(vertices: seq<Float4>, normals: seq<Float4>, x: nat, y: nat, k: nat): (Float4, Float4)
    requires |vertices| == CELLS && |normals| == CELLS
    requires x < CLOTH_SIZE - 1 && y < CLOTH_SIZE - 1 && k < 4
  {
    (normals[QuadCorner(x, y, k)], vertices[QuadCorner(x, y, k)])
  }

  class ClothRenderer {
    const cloth: Cloth
    var lastUpdateTime: int
    var lastPhysicsUpdateDuration: int
    var lastTransferUpdateDuration: int
    var lastRenderUpdateDuration: int
    var paused: bool
    var singleStep: bool
    var showNormals: bool
    var cameraOffsetPosition: seq<int>

    predicate Valid()
      reads this
    {
      |cameraOffsetPosition| == 4
    }

    function InputState(): Input
      reads this
    {
      Input(paused, singleStep, showNormals, cameraOffsetPosition)
    }

    function State(): Control
      reads this
    {
      Control(InputState(), lastUpdateTime)
    }

    /** Everything starts at zero or false; the registration of the instance for the static
        GLUT callbacks is not modelled. */
    constructor (cloth: Cloth)
      ensures this.cloth == cloth && Valid()
      ensures State() == Control(Input(false, false, false, [0, 0, 0, 0]), 0)
      ensures lastPhysicsUpdateDuration == 0 && lastTransferUpdateDuration == 0 && lastRenderUpdateDuration == 0
    {
      this.cloth := cloth;
      lastUpdateTime := 0;
      lastPhysicsUpdateDuration := 0;
      lastTransferUpdateDuration := 0;
      lastRenderUpdateDuration := 0;
      paused := false;
      singleStep := false;
      showNormals := false;
      assert |[0, 0, 0, 0]| == 4;
      var undefined: seq<int> :| |undefined| == 4;
      cameraOffsetPosition := undefined;
      new;
      ZeroCamera();
    }

    /** Set all four camera offset components to zero. */
    method ZeroCamera()
      requires Valid()
      modifies this`cameraOffsetPosition
      ensures cameraOffsetPosition == [0, 0, 0, 0]
    {
      var i := 0;
      while i != 4
        invariant 0 <= i <= 4 && |cameraOffsetPosition| == 4
        invariant forall j :: 0 <= j < i ==> cameraOffsetPosition[j] == 0
      {
        cameraOffsetPosition := cameraOffsetPosition[i := 0];
        i := i + 1;
      }
    }

    /** The keyboard callback: update the interaction state, or reset the cloth on 'r'. */
    method KeyboardFunc(key: char)
      requires Valid()
      modifies this`paused, this`singleStep, this`showNormals, this`cameraOffsetPosition
      modifies cloth, cloth.sim`args
      ensures Valid()
      ensures InputState() == ApplyKey(old(InputState()), key)
      ensures key == 'r' ==>
                cloth.Valid() && cloth.Buffers() == AfterReset(cloth.sim.program) &&
                cloth.result == cloth.positions && cloth.normalsResult == cloth.normals
      ensures key != 'r' ==> unchanged(cloth) && unchanged(cloth.sim)
    {
      if key == '\r' || key == '\n' {
        paused := !paused;
      } else if key == ' ' {
        singleStep := true;
      } else if key == 'r' {
        cloth.Reset();
      } else if key == 'n' {
        showNormals := !showNormals;
      } else if key == 'w' {
        cameraOffsetPosition := cameraOffsetPosition[1 := cameraOffsetPosition[1] + 1];
      } else if key == 'a' {
        cameraOffsetPosition := cameraOffsetPosition[0 := cameraOffsetPosition[0] - 1];
      } else if key == 's' {
        cameraOffsetPosition := cameraOffsetPosition[1 := cameraOffsetPosition[1] - 1];
      } else if key == 'd' {
        cameraOffsetPosition := cameraOffsetPosition[0 := cameraOffsetPosition[0] + 1];
      } else if key == 'c' {
        ZeroCamera();
      } else if key == 'q' {
        cameraOffsetPosition := cameraOffsetPosition[2 := cameraOffsetPosition[2] - 1];
      } else if key == 'z' {
        cameraOffsetPosition := cameraOffsetPosition[2 := cameraOffsetPosition[2] + 1];
      }
    }

    /** Run PHYSICS_TICS_PER_RENDER_FRAME steps. */
    method RunPhysicsUpdate()
      requires cloth.Valid()
      modifies cloth`oldPositions, cloth`positions, cloth`newPositions, cloth`normals
      ensures cloth.Valid()
      ensures cloth.Buffers() == Steps(cloth.sim.program, old(cloth.Buffers()), PHYSICS_TICS_PER_RENDER_FRAME)
    {
      var i := 0;
      while i != PHYSICS_TICS_PER_RENDER_FRAME
        invariant 0 <= i <= PHYSICS_TICS_PER_RENDER_FRAME
        invariant cloth.Valid()
        invariant cloth.Buffers() == Steps(cloth.sim.program, old(cloth.Buffers()), i)
      {
        cloth.Step();
        i := i + 1;
      }
    }

    /** One displayed frame: step and read back the cloth if the frame gate opens, always
        clear the single-step request, and record the durations. */
    method Display(clock: FrameClock)
      requires Valid() && cloth.Valid()
      modifies this`lastUpdateTime, this`lastPhysicsUpdateDuration, this`lastTransferUpdateDuration
      modifies this`lastRenderUpdateDuration, this`singleStep, cloth
      ensures Valid() && cloth.Valid()
      ensures State() == OnEvent(old(State()), Frame(clock.time))
      ensures ShouldUpdate(old(State()), clock.time) ==>
                && cloth.Buffers() == Steps(cloth.sim.program, old(cloth.Buffers()), PHYSICS_TICS_PER_RENDER_FRAME)
                && cloth.result == cloth.positions && cloth.normalsResult == cloth.normals
                && lastPhysicsUpdateDuration == clock.physicsDone - clock.time
                && lastTransferUpdateDuration == clock.transferDone - clock.transferStart
      ensures !ShouldUpdate(old(State()), clock.time) ==>
                && unchanged(cloth)
                && lastPhysicsUpdateDuration == old(lastPhysicsUpdateDuration)
                && lastTransferUpdateDuration == old(lastTransferUpdateDuration)
      ensures lastRenderUpdateDuration == clock.renderDone - clock.renderStart
    {
      if !paused || singleStep {
        var time := clock.time;
        var targetUpdateInterval := 1000 / TARGET_FRAME_RATE;
        var shouldUpdate := time - lastUpdateTime > targetUpdateInterval;
        if shouldUpdate {
          lastUpdateTime := time;
          RunPhysicsUpdate();
          lastPhysicsUpdateDuration := clock.physicsDone - time;

          var transferStartTime := clock.transferStart;
          cloth.Transfer();
          lastTransferUpdateDuration := clock.transferDone - transferStartTime;
        }
      }
      singleStep := false;

      var renderStartTime := clock.renderStart;
      lastRenderUpdateDuration := clock.renderDone - renderStartTime;
    }

    /** The (normal, vertex) pairs renderCloth hands to GL, in order: four per quad, quads in
        row-major order of their loop indices (x, y). */
    method RenderCloth() returns (stream: seq<(Float4, Float4)>)
      requires |cloth.result| == CELLS && |cloth.normalsResult| == CELLS
      ensures |stream| == 4 * (CLOTH_SIZE - 1) * (CLOTH_SIZE - 1)
      ensures forall x, y, k :: 0 <= x < CLOTH_SIZE - 1 && 0 <= y < CLOTH_SIZE - 1 && 0 <= k < 4 ==>
                stream[4 * (x * (CLOTH_SIZE - 1) + y) + k] == QuadVertex(cloth.result, cloth.normalsResult, x, y, k)
    {
      var vertices, normals := cloth.result, cloth.normalsResult;
      stream := [];
      var x := 0;
      while x != CLOTH_SIZE - 1
        invariant 0 <= x <= CLOTH_SIZE - 1
        invariant |stream| == 4 * (x * (CLOTH_SIZE - 1))
        invariant forall x', y', k ::
                    0 <= x' && 0 <= y' < CLOTH_SIZE - 1 && 0 <= k < 4 && x' * (CLOTH_SIZE - 1) + y' < x * (CLOTH_SIZE - 1)
                    ==> stream[4 * (x' * (CLOTH_SIZE - 1) + y') + k] == QuadVertex(vertices, normals, x', y', k)
      {
        var y := 0;
        while y != CLOTH_SIZE - 1
          invariant 0 <= y <= CLOTH_SIZE - 1
          invariant |stream| == 4 * (x * (CLOTH_SIZE - 1) + y)
          invariant forall x', y', k ::
                      0 <= x' && 0 <= y' < CLOTH_SIZE - 1 && 0 <= k < 4 && x' * (CLOTH_SIZE - 1) + y' < x * (CLOTH_SIZE - 1) + y
                      ==> stream[4 * (x' * (CLOTH_SIZE - 1) + y') + k] == QuadVertex(vertices, normals, x', y', k)
        {
          stream := stream + [QuadVertex(vertices, normals, x, y, 0), QuadVertex(vertices, normals, x, y, 1),
                              QuadVertex(vertices, normals, x, y, 2), QuadVertex(vertices, normals, x, y, 3)];
          y := y + 1;
        }
        x := x + 1;
      }
    }

    /** The debug line for the recorded durations; it reads back to those durations and the
        frame rate they imply. */
    function MakeDebugInfoString(): (s: string)
      reads this
      ensures DebugText.ParseDebugInfo(s) ==
                DebugText.Some(DebugText.Summary(lastPhysicsUpdateDuration, lastTransferUpdateDuration, lastRenderUpdateDuration))
    {
      var physics, transfer, render := lastPhysicsUpdateDuration, lastTransferUpdateDuration, lastRenderUpdateDuration;
      DebugText.DebugInfoRoundTrip(physics, transfer, render);
      DebugText.DebugInfoString(physics, transfer, render)
    }
  }
}
