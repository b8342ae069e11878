/** Compile-time configuration of the simulator (clcloth/config.h, the active
    "128x128 on sphere" block and the settings that follow it). */
module ClothConfig {
  /** Grid resolution N: the cloth is an N x N grid of particles. */
  const CLOTH_SIZE: nat := 128
  /** Number of particles, the length of every device buffer. */
  const CELLS: nat := CLOTH_SIZE * CLOTH_SIZE
  /** Relaxation passes per step; the step routine insists it is odd. */
  const SOLVER_ITERATIONS: nat := 9

  /** Work-group edge and halo margin; they size the local scratch tile of constrain. */
  const BLOCK_SIZE: nat := 8
  const BORDER: nat := 2
  const TEMP_SIZE: nat := BLOCK_SIZE + 2 * BORDER

  /** Flat-sheet layout parameters. */
  const CLOTH_START_X: real := 0.7
  const CLOTH_START_Y: real := 0.7
  const CLOTH_START_Z: real := 14.1
  const CLOTH_SCALE: real := 32.0

  /** Renderer pacing. */
  const PHYSICS_TICS_PER_RENDER_FRAME: nat := 1
  const TARGET_FRAME_RATE: nat := 60
}
