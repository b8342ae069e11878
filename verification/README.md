# clcloth host orchestration, modelled in Dafny

clcloth simulates a 128 x 128 cloth on an OpenCL device and draws it with GLUT. The
physics (Verlet advance, constraint relaxation with collision projection, normal
estimation) lives in the device routines of `kernel.cl`; kernel.cl is not part of this
model. What this project models is the host program in `clcloth/main.cpp`:

- **Buffer-role orchestration (`Cloth`, `ClothSim`).** Four device buffers
  (`oldPositions`, `positions`, `newPositions`, `normals`) are fields of class
  `ClothHost.Cloth`. `ClothHost.ClothSim` holds the compiled program and the arguments
  set on its five kernel objects. `Cloth.Init` lays out the flat sheet and performs the
  `clSetKernelArg` calls. `Cloth.Step` enqueues advance, timeStep, nine alternating
  constrain passes and calculateNormals. Each routine of kernel.cl is an arbitrary
  whole-buffer function, a field of `Pipeline.Program`. Which argument position each
  routine writes is an assumption (`Pipeline.OutputArg`). Which buffer each pass reads and
  writes is then proved from the bindings `Init` sets. This covers the
  ping-pong discipline, the odd pass count that lands the result in `positions`, the
  normals pass and read-back seeing that buffer, and reset forgetting history.
- **Frame and input state machine (`ClothRenderer`).** Key presses toggle `paused` and
  `showNormals`, request a single step, reset the cloth, or move or centre the camera
  offset. `display` runs physics only when not paused (or a single step is pending) and
  more than `1000 / TARGET_FRAME_RATE` = 16 ms have passed since the last update. Clock
  readings are parameters (`Renderer.FrameClock`). The pure transitions are in module
  `FrameControl`, and properties over whole event traces are proved there.
- **Pure helpers.** The flat-sheet layout and the quad index arithmetic of `renderCloth`
  are in `ClothLayout`. The FPS/debug line is in `DebugText`, with a reader that
  recovers its fields.

Modules, leaves first: `ClothConfig` (config.dfy), `ClothLayout` (layout.dfy),
`Pipeline` (pipeline.dfy), `ClothHost` (cloth.dfy), `DebugText` (debug_info.dfy),
`FrameControl` (frame_control.dfy), `Renderer` (renderer.dfy).

Two facts about step ordering that the model makes explicit:

- stepKernel (timeStep) is bound to `oldPositions` as argument 0 (main.cpp:232-235), and the
  model takes timeStep to write that argument (see "Left out"). advance reads `oldPositions`
  (main.cpp:211-216), so under that assumption advance must be enqueued before timeStep, as
  main.cpp:257-260 does on its in-order queue (`Pipeline.TimeStepWritesAdvanceInput`).
- The pass count must be odd: main.cpp:262 asserts it at run time inside `Cloth::step`. Here
  it is a static `assert` on the constant `SOLVER_ITERATIONS` in `Cloth.Step`, and
  `Pipeline.FinalPassTarget` states for any pass count why oddness matters.

## Model

| member | source | states |
|---|---|---|
| `ClothLayout.FlatVertex` | clcloth/main.cpp:192-198 | vertex i of the flat sheet has z = CLOTH_START_Z and w = 1, and x and y lie within the sheet's extent around CLOTH_START_X / CLOTH_START_Y |
| `ClothLayout.SheetCoordStep` | clcloth/main.cpp:194-195 | consecutive grid lines are CLOTH_SCALE / CLOTH_SIZE apart |
| `ClothLayout.SheetCoordInjective` | clcloth/main.cpp:194-195 | distinct grid lines have distinct coordinates |
| `ClothLayout.FlatSheetShape` | clcloth/main.cpp:190-198 | every vertex has z = CLOTH_START_Z and w = 1; two vertices share x iff they share i % N, and share y iff they share i / N |
| `ClothLayout.FlatSheetSpacing` | clcloth/main.cpp:192-198 | neighbours along a row differ by the spacing in x only; neighbours N apart differ by the spacing in y only |
| `ClothLayout.FlatSheetDistinct` | clcloth/main.cpp:192-198 | no two particles start at the same point |
| `ClothLayout.QuadCorner` | clcloth/main.cpp:572-579 | the k-th index renderCloth uses for loop indices (x, y) is in range and is grid point (x, y), (x+1, y), (x+1, y+1) or (x, y+1) |
| `ClothLayout.FlatCorner` | clcloth/main.cpp:572-579 | on the flat sheet, the four corners of quad (x, y) lie at the corner-0 position offset by zero or one spacing in x and y, in the order renderCloth emits them |
| `ClothLayout.ClockwiseSquareArea` | clcloth/main.cpp:553 | four corners going up, right, then down around a side-h square have signed area -h^2 (doubled: -2 h^2), i.e. they run clockwise |
| `ClothLayout.QuadIsClockwiseSquare` | clcloth/main.cpp:553-579 | on the flat sheet each emitted quad is a spacing-by-spacing square whose corners run clockwise, matching the GL_CW front face renderCloth sets |
| `Pipeline.Device.Set` | clcloth/main.cpp:257-270 | a dispatch overwrites one buffer and leaves the other three as they were |
| `Pipeline.DispatchFrame` | clcloth/main.cpp:211-240 | a dispatch changes only the buffer it writes, and its output depends only on the buffers bound as its inputs |
| `Pipeline.RoleFor` | clcloth/main.cpp:263-268 | the (source, destination) pair of a pass is two different buffers, {positions, newPositions} |
| `Pipeline.PassRoles` | clcloth/main.cpp:218-230 | pass i reads newPositions and writes positions when i is even, reads positions and writes newPositions when odd |
| `Pipeline.PassesChain` | clcloth/main.cpp:263-268 | each pass reads exactly the buffer the previous pass wrote |
| `Pipeline.FinalPassTarget` | clcloth/main.cpp:262-270 | after n >= 1 passes the last write goes to positions iff n is odd; with SOLVER_ITERATIONS passes the normals kernel reads exactly that buffer |
| `Pipeline.ReadWriteDisjoint` | clcloth/main.cpp:211-240 | every kernel except timeStep writes a buffer it does not read |
| `Pipeline.TimeStepWritesAdvanceInput` | clcloth/main.cpp:211-216 | timeStep overwrites a buffer advance reads, and advance writes nothing timeStep reads, so advance must be enqueued first |
| `Pipeline.WriteOnlyBufferIsRead` | clcloth/main.cpp:206-220 | newPositions, created write-only, is what advance writes and what the even relaxation pass reads; normals, the other write-only buffer, is read by no kernel |
| `Pipeline.PassEffect` | clcloth/main.cpp:263-268 | pass i replaces its destination with constrain of its source and changes nothing else |
| `Pipeline.RelaxClosedForm` | clcloth/main.cpp:263-269 | after n passes the n-th and (n-1)-th constrain iterates of the provisional grid sit in positions/newPositions as n's parity dictates; oldPositions and normals are untouched |
| `Pipeline.StepMatchesRoles` | clcloth/main.cpp:252-275 | the dispatch sequence of a step equals the role-level step: positions = constrain^9(advance(prev, cur)), oldPositions = timeStep(prev, cur), normals computed from the new positions, independent of prior newPositions/normals |
| `ClothHost.Resized` | clcloth/main.cpp:190-191 | vector resize keeps the prefix and zero-fills new elements |
| `ClothHost.ClothSim.constructor` | clcloth/main.cpp:97-101 | the five kernel objects start with no arguments set |
| `ClothHost.ClothSim.SetKernelArg` | clcloth/main.cpp:211-240 | one argument of one kernel object takes the given value; every other argument is unchanged |
| `ClothHost.Cloth.constructor` | clcloth/main.cpp:169-172 | a new cloth has empty host copies and no live buffers |
| `ClothHost.Cloth.Init` | clcloth/main.cpp:186-241 | result, oldPositions and positions all equal the flat sheet, normalsResult is resized, the kernels are bound as the source binds them |
| `ClothHost.Cloth.BindKernels` | clcloth/main.cpp:211-240 | afterwards every kernel argument holds the buffer or local tile the source binds |
| `ClothHost.Cloth.Uninit` | clcloth/main.cpp:243-250 | the host vertex copy is cleared and the buffers are released |
| `ClothHost.Cloth.Write` | clcloth/main.cpp:257-270 | writing a buffer changes only that buffer |
| `ClothHost.Cloth.Enqueue` | clcloth/main.cpp:257-270 | running a kernel changes the buffers exactly as its bindings dictate and keeps the cloth valid |
| `ClothHost.Cloth.Step` | clcloth/main.cpp:252-275 | the cloth stays valid, and the new buffers equal the dispatch sequence's result and the role-level step of the pre-step oldPositions and positions |
| `ClothHost.Cloth.Transfer` | clcloth/main.cpp:277-289 | result := positions and normalsResult := normals; device buffers unchanged and the cloth stays valid |
| `ClothHost.Cloth.Reset` | clcloth/main.cpp:178-184 | afterwards the state is valid, the buffers equal one step from the flat sheet, and the host copies equal positions and normals, whatever came before |
| `ClothHost.ResetMatchesFreshStart` | clcloth/main.cpp:178-184 | a reset cloth is indistinguishable from a freshly built, initialised, stepped and read-back cloth on the same program |
| `DebugText.Digits` | clcloth/main.cpp:658-662 | a printed natural is a nonempty digit string without leading zeros |
| `DebugText.IntToString` | clcloth/main.cpp:654-662 | a printed int starts with '-' iff negative, and the rest (all of it for a non-negative int) consists of digits only |
| `DebugText.DigitsRoundTrip` | clcloth/main.cpp:658-662 | reading the digits of n gives n |
| `DebugText.IntRoundTrip` | clcloth/main.cpp:654-662 | reading a printed int gives the int back |
| `DebugText.ReadFpsRoundTrip` | clcloth/main.cpp:651-656 | the FPS field reads back as 1000 / total when total > 0 and as N/A otherwise |
| `DebugText.ReadDurationsRoundTrip` | clcloth/main.cpp:657-663 | the three duration fields read back to the three durations |
| `DebugText.DebugInfoRoundTrip` | clcloth/main.cpp:648-665 | the whole debug line parses back to `Summary`: the frame rate 1000 / total (N/A iff the summed duration is not positive) and the three durations |
| `FrameControl.ApplyKey` | clcloth/main.cpp:413-440 | a key press keeps the camera offset at four components; the per-key effects are the lemmas below |
| `FrameControl.MoveKeyEffect` | clcloth/main.cpp:423-439 | w/s add +1/-1 to component 1, a/d add -1/+1 to component 0, q/z add -1/+1 to component 2, and nothing else changes |
| `FrameControl.OppositeKeysCancel` | clcloth/main.cpp:423-439 | a camera key followed by its opposite restores the state |
| `FrameControl.TogglesAreInvolutions` | clcloth/main.cpp:415-422 | return/newline flip paused and change nothing else, 'n' flips showNormals and changes nothing else, so two presses restore the state; only return/newline change paused |
| `FrameControl.CenterKey` | clcloth/main.cpp:431-435 | 'c' zeroes all four camera components, touches no flag, and is idempotent |
| `FrameControl.InertKeys` | clcloth/main.cpp:413-440 | an unbound key and 'r' leave the interaction state unchanged; space only sets singleStep |
| `FrameControl.OnEvent` | clcloth/main.cpp:455-473 | the transition of one key press or frame keeps the camera offset at four components |
| `FrameControl.FrameEffect` | clcloth/main.cpp:457-473 | a frame always clears singleStep, changes no other input, sets lastUpdateTime to the frame time when physics runs and leaves it unchanged otherwise |
| `FrameControl.UpdatesAreSpaced` | clcloth/main.cpp:457-464 | over any trace of key presses and frames, k physics updates advance lastUpdateTime by at least 17k ms |
| `FrameControl.PausedStaysStill` | clcloth/main.cpp:457 | paused with no pending single step and no key pressed, no frame runs physics |
| `FrameControl.PausedStepsAtMostOnce` | clcloth/main.cpp:457-473 | paused with no key pressed, at most one frame runs physics |
| `FrameControl.RunningUpdatesEveryFrame` | clcloth/main.cpp:457-465 | running, with frames more than 16 ms apart, every frame runs physics |
| `FrameControl.SingleStepCanBeDropped` | clcloth/main.cpp:457-473 | a single step requested within 16 ms of the last update does not run, yet the request is cleared |
| `Renderer.ClothRenderer.constructor` | clcloth/main.cpp:336-350 | flags false, times and durations zero, camera offset zeroed |
| `Renderer.ClothRenderer.ZeroCamera` | clcloth/main.cpp:347-348 | all four camera offset components become zero |
| `Renderer.ClothRenderer.KeyboardFunc` | clcloth/main.cpp:413-440 | the interaction state becomes ApplyKey of the old one; 'r' leaves the cloth in the reset state, any other key leaves the cloth untouched |
| `Renderer.ClothRenderer.RunPhysicsUpdate` | clcloth/main.cpp:482-488 | the buffers advance by PHYSICS_TICS_PER_RENDER_FRAME steps and the cloth stays valid |
| `Renderer.ClothRenderer.Display` | clcloth/main.cpp:455-480 | the frame gate decides: when it opens the cloth is stepped and read back and lastUpdateTime becomes the frame time, otherwise the cloth and physics timings are untouched; singleStep is false afterwards either way |
| `Renderer.ClothRenderer.RenderCloth` | clcloth/main.cpp:551-583 | the GL stream holds 4 (N-1)^2 (normal, vertex) pairs, and pair 4(x(N-1)+y)+k is the k-th corner of quad (x, y) |
| `Renderer.ClothRenderer.MakeDebugInfoString` | clcloth/main.cpp:648-665 | the debug line reads back to the recorded durations and the frame rate they imply |

The pure functions these rows rely on are covered by the rows of the members built on them:
`DebugText.DebugInfoString`, `FpsText` and `DurationsText` (main.cpp:648-665) by
`DebugInfoRoundTrip` and `ClothRenderer.MakeDebugInfoString`; `Pipeline.Dispatch` and
`Pipeline.StepSpec` (main.cpp:252-271) by `DispatchFrame`, `Cloth.Enqueue`, `StepMatchesRoles`
and `Cloth.Step`.

## Left out

- Reads of the write-only buffer: newPositions is created with CL_MEM_WRITE_ONLY (main.cpp:206), yet it is argument 0 of the even constrain kernel (main.cpp:218), so passes 0, 2, 4, 6 and 8 read it. OpenCL leaves such a read undefined. `Pipeline.Dispatch` takes it to return the buffer's last write, and `PassRoles`, `RelaxClosedForm`, `StepMatchesRoles`, `Cloth.Step` and `Cloth.Reset` rest on that (`Pipeline.WriteOnlyBufferIsRead` states where the read happens).

- The device routines (advance, timeStep, constrain, calculateNormals) are in kernel.cl, which is not part of this model. Each is an arbitrary whole-buffer function. Which bound argument each one writes (advance: 2, timeStep: 0, constrain and calculateNormals: 1) is an assumption of the model, since kernel.cl is not shown (`Pipeline.OutputArg`). constrain and calculateNormals are taken to read only their source argument.
- Parallel execution within a dispatch and the local-memory tile are not modelled. Each dispatch is one atomic whole-buffer update, and the tile appears only as a bound `Local` argument of TEMP_SIZE^2 elements.
- The clFinish barriers and non-blocking reads are not modelled: on the in-order queue they do not change what is observed.
- ClothSim::init, uninit, build and readLines are not modelled. They cover OpenCL platform, device and context setup and reading and compiling kernel.cl. The compiled program is a constructor parameter.
- OpenCL return-code checks (`assert(!error)`) are not modelled: every call is taken to succeed.
- The newPositions and normals buffers are created without contents. Their initial values are arbitrary (`*`).
- 32-bit float arithmetic is not modelled. Vertex coordinates are reals, and `FlatVertex` does not model single-precision rounding of the layout formula.
- Camera offsets are unbounded integers. `ApplyKey` does not model float rounding once an offset exceeds 2^24.
- `FpsText` uses integer division 1000 / t for positive t in place of truncating the float quotient 1000 / float(t). The two agree for every positive int: an exact quotient is computed exactly, and an inexact one lies at least 1/t from an integer, far beyond float rounding.
- Times and durations are unbounded integers, so `Display` and `DebugText.DebugInfoString` do not model int overflow of the clock or of the summed durations.
- All GL/GLUT work is not modelled: initGLUT, initGL, reshapeFunc, loop, render, moveCamera, renderCollisions, renderClothNormals, renderDebugInfo, renderString, glutSwapBuffers, and the tablecloth colour choice in renderCloth. `RenderCloth` keeps only the sequence of (normal, vertex) pairs it sends.
- The static `self` pointer that routes the GLUT callbacks to the renderer is not modelled: callers call the instance's methods directly.
- `main` is not modelled as a whole: the GLUT main loop never returns.
