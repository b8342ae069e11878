/** The host-side buffer manager (clcloth/main.cpp:30-55, 140-289): ClothSim owns the
    compiled program and its kernel objects, Cloth owns the four device buffers and the
    host copies read back from them. */
module ClothHost {
  import opened ClothConfig
  import opened ClothLayout
  import opened Pipeline

  /** std::vector::resize to n elements: a prefix is kept and new elements are zero. */
  function Resized(s: seq<Float4>, n: nat): (r: seq<Float4>)
    ensures |r| == n
    ensures forall i :: 0 <= i < n && i < |s| ==> r[i] == s[i]
    ensures forall i :: |s| <= i < n ==> r[i] == ZERO4
  {
    if |s| >= n then s[..n] else s + seq(n - |s|, _ => ZERO4)
  }

  /** The compute context as far as Cloth uses it: the compiled program and the
      arguments set on each kernel object. */
  class ClothSim {
    const program: Program
    var args: Bindings

    /** Platform, device and context setup and the build of kernel.cl are not modelled:
        the compiled program is given. The five kernel objects start with no arguments set. */
    constructor (program: Program)
      ensures this.program == program
      ensures args == map[Advance := map[], ConstrainEven := map[], ConstrainOdd := map[],
                          TimeStep := map[], CalculateNormals := map[]]
    {
      this.program := program;
      args := map[Advance := map[], ConstrainEven := map[], ConstrainOdd := map[],
                  TimeStep := map[], CalculateNormals := map[]];
    }

    /** clSetKernelArg: argument `index` of kernel object k becomes a. */
    method SetKernelArg(k: KernelId, index: nat, a: Arg)
      modifies this`args
      ensures Has(args, k, index, a)
      ensures forall k', i, a' :: (k' != k || i != index) ==> (Has(args, k', i, a') <==> Has(old(args), k', i, a'))
    {
      var current := if k in args then args[k] else map[];
      args := args[k := current[index := a]];
    }
  }

  class Cloth {
    const sim: ClothSim
    var result: seq<Float4>
    var normalsResult: seq<Float4>
    var oldPositions: Grid
    var positions: Grid
    var newPositions: Grid
    var normals: Grid
    /** True while the four buffer handles refer to buffers created by Init and not yet released. */
    var buffersLive: bool

    constructor (sim: ClothSim)
      ensures this.sim == sim
      ensures result == [] && normalsResult == [] && !buffersLive
    {
      this.sim := sim;
      result, normalsResult := [], [];
      oldPositions, positions, newPositions, normals := *, *, *, *;
      buffersLive := false;
    }

    /** The contents of the four device buffers. */
    function Buffers(): Device
      reads this
    {
      Device(oldPositions, positions, newPositions, normals)
    }

    /** The state Init establishes and every later operation keeps: buffers exist, the kernels are
        bound to them as Init binds them, and the host copies have one entry per particle. */
    predicate Valid()
      reads this, sim
    {
      buffersLive && Bound(sim.args) && |result| == CELLS && |normalsResult| == CELLS
    }

    /** Lay out the flat sheet in `result`, create the buffers from it and bind the kernels. */
    method Init()
      modifies this, sim`args
      ensures Valid()
      ensures result == FlatSheet()
      ensures oldPositions == FlatSheet() && positions == FlatSheet()
      ensures normalsResult == Resized(old(normalsResult), CELLS)
    {
      result := Resized(result, CELLS);
      normalsResult := Resized(normalsResult, CELLS);
      var i := 0;
      while i != |result|
        invariant |result| == CELLS && 0 <= i <= CELLS
        invariant normalsResult == Resized(old(normalsResult), CELLS)
        invariant forall j :: 0 <= j < i ==> result[j] == FlatVertex(j)
      {
        result := result[i := FlatVertex(i)];
        i := i + 1;
      }
      // both position buffers are created as copies of the host layout
      oldPositions := result;
      positions := result;
      // the other two are created write-only with undefined contents; the even relaxation
      // pass nevertheless reads newPositions (see Pipeline.WriteOnlyBufferIsRead)
      newPositions := *;
      normals := *;
      buffersLive := true;

      BindKernels();
    }

    /** Set the arguments of the five kernel objects (main.cpp:211-240). */
    method BindKernels()
      modifies sim`args
      ensures Bound(sim.args)
    {
      sim.SetKernelArg(Advance, 0, Buffer(OldPositions));
      sim.SetKernelArg(Advance, 1, Buffer(Positions));
      sim.SetKernelArg(Advance, 2, Buffer(NewPositions));

      sim.SetKernelArg(ConstrainEven, 0, Buffer(NewPositions));
      sim.SetKernelArg(ConstrainEven, 1, Buffer(Positions));
      sim.SetKernelArg(ConstrainEven, 2, Local(TEMP_SIZE * TEMP_SIZE));

      sim.SetKernelArg(ConstrainOdd, 0, Buffer(Positions));
      sim.SetKernelArg(ConstrainOdd, 1, Buffer(NewPositions));
      sim.SetKernelArg(ConstrainOdd, 2, Local(TEMP_SIZE * TEMP_SIZE));

      sim.SetKernelArg(TimeStep, 0, Buffer(OldPositions));
      sim.SetKernelArg(TimeStep, 1, Buffer(Positions));

      sim.SetKernelArg(CalculateNormals, 0, Buffer(Positions));
      sim.SetKernelArg(CalculateNormals, 1, Buffer(Normals));
    }

    /** Clear the host vertex copy and release the four buffers. */
    method Uninit()
      modifies this`result, this`buffersLive
      ensures result == [] && !buffersLive
    {
      result := [];
      buffersLive := false;
    }

    /** Overwrite one device buffer. */
    method Write(s: Slot, g: Grid)
      modifies this`oldPositions, this`positions, this`newPositions, this`normals
      ensures Buffers() == old(Buffers()).Set(s, g)
    {
      match s
      case OldPositions => oldPositions := g;
      case Positions => positions := g;
      case NewPositions => newPositions := g;
      case Normals => normals := g;
    }

    /** clEnqueueNDRangeKernel on an in-order queue: run kernel k over the whole grid
        against its current arguments. This is the in-place counterpart of Pipeline.Dispatch:
        it looks up the kernel's bound buffers and overwrites its output buffer. */
    method Enqueue(k: KernelId)
      requires Valid()
      modifies this`oldPositions, this`positions, this`newPositions, this`normals
      ensures Valid()
      ensures Buffers() == Dispatch(sim.program, sim.args, k, old(Buffers()))
    {
      var b := sim.args[k];
      var p := sim.program;
      var d := Buffers();
      match k
      case Advance => Write(b[2].slot, p.advance(d.Get(b[0].slot), d.Get(b[1].slot)));
      case TimeStep => Write(b[0].slot, p.timeStep(d.Get(b[0].slot), d.Get(b[1].slot)));
      case ConstrainEven => Write(b[1].slot, p.constrain(d.Get(b[0].slot)));
      case ConstrainOdd => Write(b[1].slot, p.constrain(d.Get(b[0].slot)));
      case CalculateNormals => Write(b[1].slot, p.calculateNormals(d.Get(b[0].slot)));
    }

    /** One simulation step: advance, timeStep, SOLVER_ITERATIONS alternating relaxation
        passes, calculateNormals, then wait for the queue. */
    method Step()
      requires Valid()
      modifies this`oldPositions, this`positions, this`newPositions, this`normals
      ensures Valid()
      ensures Buffers() == StepSpec(sim.program, sim.args, old(Buffers()))
      ensures Buffers() == StepByRoles(sim.program, old(oldPositions), old(positions))
    {
      Enqueue(Advance);
      Enqueue(TimeStep);

      assert SOLVER_ITERATIONS % 2 == 1;
      ghost var relaxed := Buffers();
      var i := 0;
      while i != SOLVER_ITERATIONS
        invariant 0 <= i <= SOLVER_ITERATIONS
        invariant Buffers() == Relax(sim.program, sim.args, relaxed, i)
      {
        var even := i % 2 == 0;
        Enqueue(if even then ConstrainEven else ConstrainOdd);
        i := i + 1;
      }
      Enqueue(CalculateNormals);
      StepMatchesRoles(sim.program, sim.args, old(Buffers()));
    }

    /** Read positions and normals back into the host copies; the device buffers are not touched. */
    method Transfer()
      requires Valid()
      modifies this`result, this`normalsResult
      ensures Valid()
      ensures result == positions && normalsResult == normals
    {
      result := positions;
      normalsResult := normals;
    }

    /** Release everything, rebuild from the flat sheet, run one step and read it back. The
        outcome depends only on the program, not on anything that happened before. */
    method Reset()
      modifies this, sim`args
      ensures Valid()
      ensures Buffers() == AfterReset(sim.program)
      ensures result == positions && normalsResult == normals
    {
      Uninit();
      Init();
      Step();
      Transfer();
    }
  }

  /** Resetting a cloth leaves it in exactly the state of a cloth freshly built on the same
      program, initialised, stepped once and read back: reset forgets all history. */
  method ResetMatchesFreshStart(c: Cloth) returns (f: Cloth)
    modifies c, c.sim`args
    ensures f.sim.program == c.sim.program
    ensures f.Valid() && c.Valid()
    ensures f.Buffers() == c.Buffers() && f.result == c.result && f.normalsResult == c.normalsResult
  {
    c.Reset();
    var sim := new ClothSim(c.sim.program);
    f := new Cloth(sim);
    f.Init();
    f.Step();
    f.Transfer();
  }
}
