/** The device side of one simulation step as the host orchestrates it
    (clcloth/main.cpp:211-240, 252-275): four device buffers, the kernel
    argument bindings Cloth::init establishes, and the meaning of dispatching a
    kernel against those bindings.  The kernel routines themselves live in
    kernel.cl, which is not part of this model: each is an arbitrary
    whole-buffer function supplied as a `Program`. */
module Pipeline {
  import opened ClothConfig
  import opened ClothLayout

  /** The four device buffers of a Cloth, named after the host fields that hold them. */
  datatype Slot = OldPositions | Positions | NewPositions | Normals

  /** Contents of the four device buffers. */
  datatype Device = Device(oldPositions: Grid, positions: Grid, newPositions: Grid, normals: Grid)
  {
    function Get(s: Slot): Grid
    {
      match s
      case OldPositions => oldPositions
      case Positions => positions
      case NewPositions => newPositions
      case Normals => normals
    }

    /** Overwrite one buffer; the other three keep their contents. */
    function Set(s: Slot, g: Grid): (d: Device)
      ensures d.Get(s) == g
      ensures forall t :: t != s ==> d.Get(t) == Get(t)
    {
      match s
      case OldPositions => this.(oldPositions := g)
      case Positions => this.(positions := g)
      case NewPositions => this.(newPositions := g)
      case Normals => this.(normals := g)
    }
  }

  /** The five kernel objects ClothSim creates; ConstrainEven and ConstrainOdd are two
      instances of the same "constrain" routine, bound to different buffers. */
  datatype KernelId = Advance | ConstrainEven | ConstrainOdd | TimeStep | CalculateNormals

  /** A kernel argument: a device buffer, or a local scratch tile of `float4s` elements. */
  datatype Arg = Buffer(slot: Slot) | Local(float4s: nat)

  /** The arguments currently set on each kernel object, by argument index. */
  type Bindings = map<KernelId, map<nat, Arg>>

  /** The routines of kernel.cl, each a whole-buffer function of the buffers it reads. */
  datatype Program = Program(
    advance: (Grid, Grid) -> Grid,     // (argument 0, argument 1) -> argument 2
    timeStep: (Grid, Grid) -> Grid,    // (argument 0, argument 1) -> argument 0
    constrain: Grid -> Grid,           // argument 0 -> argument 1
    calculateNormals: Grid -> Grid)    // argument 0 -> argument 1

  /** Argument i of kernel k is set to a. */
  predicate Has(b: Bindings, k: KernelId, i: nat, a: Arg)
  {
    k in b && i in b[k] && b[k][i] == a
  }

  /** Every argument Cloth::init sets (main.cpp:211-240) holds the value it sets. */
  predicate Bound(b: Bindings)
  {
    && Has(b, Advance, 0, Buffer(OldPositions))
    && Has(b, Advance, 1, Buffer(Positions))
    && Has(b, Advance, 2, Buffer(NewPositions))
    && Has(b, ConstrainEven, 0, Buffer(NewPositions))
    && Has(b, ConstrainEven, 1, Buffer(Positions))
    && Has(b, ConstrainEven, 2, Local(TEMP_SIZE * TEMP_SIZE))
    && Has(b, ConstrainOdd, 0, Buffer(Positions))
    && Has(b, ConstrainOdd, 1, Buffer(NewPositions))
    && Has(b, ConstrainOdd, 2, Local(TEMP_SIZE * TEMP_SIZE))
    && Has(b, TimeStep, 0, Buffer(OldPositions))
    && Has(b, TimeStep, 1, Buffer(Positions))
    && Has(b, CalculateNormals, 0, Buffer(Positions))
    && Has(b, CalculateNormals, 1, Buffer(Normals))
  }

  predicate IsBuffer(b: Bindings, k: KernelId, i: nat)
  {
    k in b && i in b[k] && b[k][i].Buffer?
  }

  /** Argument index a kernel writes. */
  function OutputArg(k: KernelId): nat
  {
    match k
    case Advance => 2
    case TimeStep => 0
    case _ => 1
  }

  /** The kernel's buffer arguments are all set. */
  predicate Ready(b: Bindings, k: KernelId)
  {
    IsBuffer(b, k, 0) && IsBuffer(b, k, 1) && (k == Advance ==> IsBuffer(b, k, 2))
  }

  /** The buffers a dispatch of k reads. */
  function Reads(b: Bindings, k: KernelId): set<Slot>
    requires Ready(b, k)
  {
    if k == Advance || k == TimeStep then {b[k][0].slot, b[k][1].slot} else {b[k][0].slot}
  }

  /** The buffer a dispatch of k writes. */
  function Writes(b: Bindings, k: KernelId): Slot
    requires Ready(b, k)
  {
    b[k][OutputArg(k)].slot
  }

  /** One dispatch of kernel k over the whole grid, as one atomic whole-buffer update. */
  function Dispatch(p: Program, b: Bindings, k: KernelId, d: Device): Device
    requires Ready(b, k)
  {
    var a0, a1 := b[k][0].slot, b[k][1].slot;
    match k
    case Advance => d.Set(b[k][2].slot, p.advance(d.Get(a0), d.Get(a1)))
    case TimeStep => d.Set(a0, p.timeStep(d.Get(a0), d.Get(a1)))
    case ConstrainEven => d.Set(a1, p.constrain(d.Get(a0)))
    case ConstrainOdd => d.Set(a1, p.constrain(d.Get(a0)))
    case CalculateNormals => d.Set(a1, p.calculateNormals(d.Get(a0)))
  }

  /** Buffers Cloth::init creates with CL_MEM_WRITE_ONLY (main.cpp:206-209). */
  predicate CreatedWriteOnly(s: Slot)
  {
    s == NewPositions || s == Normals
  }

  /** Under the bindings of Cloth::init, the even relaxation pass reads the buffer advance writes,
      which is one created write-only; the normals buffer, the other write-only one, is read by
      no kernel. Dispatch takes a kernel read of a write-only buffer to return its last write. */
  lemma WriteOnlyBufferIsRead(b: Bindings)
    requires Bound(b)
    ensures Ready(b, Advance) && Ready(b, ConstrainEven)
    ensures CreatedWriteOnly(Writes(b, Advance)) && Writes(b, Advance) in Reads(b, ConstrainEven)
    ensures forall k :: Ready(b, k) && Normals !in Reads(b, k)
  {
    forall k
      ensures Ready(b, k) && Normals !in Reads(b, k)
    {
      match k
      case Advance =>
      case ConstrainEven =>
      case ConstrainOdd =>
      case TimeStep =>
      case CalculateNormals =>
    }
  }

  /** A dispatch changes only the buffer it writes, and what it writes depends only on the
      buffers it reads. */
  lemma DispatchFrame(p: Program, b: Bindings, k: KernelId, d: Device, e: Device)
    requires Ready(b, k)
    ensures forall t :: t != Writes(b, k) ==> Dispatch(p, b, k, d).Get(t) == d.Get(t)
    ensures (forall t :: t in Reads(b, k) ==> d.Get(t) == e.Get(t)) ==>
              Dispatch(p, b, k, d).Get(Writes(b, k)) == Dispatch(p, b, k, e).Get(Writes(b, k))
  {
    var a0, a1 := b[k][0].slot, b[k][1].slot;
    if forall t :: t in Reads(b, k) ==> d.Get(t) == e.Get(t) {
      assert a0 in Reads(b, k);
      if k == Advance || k == TimeStep {
        assert a1 in Reads(b, k);
      }
    }
  }

  /** Kernel object used by relaxation pass i (main.cpp:265-266). */
  function PassKernel(i: nat): KernelId
  {
    if i % 2 == 0 then ConstrainEven else ConstrainOdd
  }

  /** The role pair of relaxation pass i, stated without reference to kernel objects:
      (source, destination). */
  function RoleFor(i: nat): (r: (Slot, Slot))
    ensures r.0 != r.1
    ensures {r.0, r.1} == {Positions, NewPositions}
  {
    if i % 2 == 0 then (NewPositions, Positions) else (Positions, NewPositions)
  }

  /** Pass i reads newPositions and writes positions when i is even, and the other way round
      when i is odd. */
  lemma PassRoles(b: Bindings, i: nat)
    requires Bound(b)
    ensures Ready(b, PassKernel(i))
    ensures Reads(b, PassKernel(i)) == {RoleFor(i).0}
    ensures Writes(b, PassKernel(i)) == RoleFor(i).1
  {
  }

  /** Each pass reads exactly the buffer the previous pass wrote. */
  lemma PassesChain(b: Bindings, i: nat)
    requires Bound(b)
    ensures Ready(b, PassKernel(i)) && Ready(b, PassKernel(i + 1))
    ensures Reads(b, PassKernel(i + 1)) == {Writes(b, PassKernel(i))}
  {
    PassRoles(b, i);
    PassRoles(b, i + 1);
  }

  /** After n >= 1 passes the last result lands in positions exactly when n is odd; so with
      SOLVER_ITERATIONS passes the normals pass, which reads positions, sees the last result. */
  lemma FinalPassTarget(b: Bindings, n: nat)
    requires Bound(b) && n >= 1
    ensures Ready(b, PassKernel(n - 1)) && Ready(b, CalculateNormals)
    ensures Writes(b, PassKernel(n - 1)) == Positions <==> n % 2 == 1
    ensures n == SOLVER_ITERATIONS ==> Reads(b, CalculateNormals) == {Writes(b, PassKernel(n - 1))}
  {
    PassRoles(b, n - 1);
  }

  /** No dispatch except timeStep reads the buffer it writes, so the per-particle work of a
      dispatch cannot race; timeStep writes its argument 0 in place. */
  lemma ReadWriteDisjoint(b: Bindings, k: KernelId)
    requires Bound(b)
    ensures Ready(b, k)
    ensures k != TimeStep <==> Writes(b, k) !in Reads(b, k)
  {
  }

  /** timeStep overwrites a buffer advance reads, while advance writes nothing timeStep reads:
      the dispatch order advance-then-timeStep is what lets advance see the pre-step oldPositions. */
  lemma TimeStepWritesAdvanceInput(b: Bindings)
    requires Bound(b)
    ensures Ready(b, Advance) && Ready(b, TimeStep)
    ensures Writes(b, TimeStep) in Reads(b, Advance)
    ensures Writes(b, Advance) !in Reads(b, TimeStep)
  {
  }

  /** n applications of f. */
  function Iterate(f: Grid -> Grid, n: nat, g: Grid): Grid
  {
    if n == 0 then g else f(Iterate(f, n - 1, g))
  }

  /** The first n relaxation passes, dispatched in order. */
  function Relax(p: Program, b: Bindings, d: Device, n: nat): Device
    requires Bound(b)
  {
    if n == 0 then d
    else
      Dispatch(p, b, PassKernel(n - 1), Relax(p, b, d, n - 1))
  }

  /** The dispatch sequence of Cloth::step (main.cpp:257-271): advance, timeStep,
      SOLVER_ITERATIONS relaxation passes, calculateNormals. */
  function StepSpec(p: Program, b: Bindings, d: Device): Device
    requires Bound(b)
  {
    var d1 := Dispatch(p, b, Advance, d);
    var d2 := Dispatch(p, b, TimeStep, d1);
    var d3 := Relax(p, b, d2, SOLVER_ITERATIONS);
    Dispatch(p, b, CalculateNormals, d3)
  }

  /** One step stated by buffer roles: the provisional grid advance(previous, current) is relaxed
      SOLVER_ITERATIONS times, the result becomes the current positions, the one before it stays
      in newPositions, timeStep produces the next previous positions, and the normals are computed
      from the final positions. */
  function StepByRoles(p: Program, previous: Grid, current: Grid): Device
  {
    var provisional := p.advance(previous, current);
    var final := Iterate(p.constrain, SOLVER_ITERATIONS, provisional);
    Device(p.timeStep(previous, current), final,
           Iterate(p.constrain, SOLVER_ITERATIONS - 1, provisional), p.calculateNormals(final))
  }

  /** Pass i replaces its destination by constrain of its source and changes nothing else. */
  lemma PassEffect(p: Program, b: Bindings, i: nat, e: Device)
    requires Bound(b)
    ensures Ready(b, PassKernel(i))
    ensures Dispatch(p, b, PassKernel(i), e) ==
              if i % 2 == 0 then e.(positions := p.constrain(e.newPositions))
              else e.(newPositions := p.constrain(e.positions))
  {
  }

  /** n relaxation passes starting from d: the iterates of constrain on d.newPositions alternate
      between positions and newPositions, and the last one is in positions exactly when n is odd;
      oldPositions and normals are untouched. */
  lemma {:induction false} RelaxClosedForm(p: Program, b: Bindings, d: Device, n: nat)
    requires Bound(b)
    ensures Relax(p, b, d, n).oldPositions == d.oldPositions
    ensures Relax(p, b, d, n).normals == d.normals
    ensures n % 2 == 1 ==>
              Relax(p, b, d, n).positions == Iterate(p.constrain, n, d.newPositions) &&
              Relax(p, b, d, n).newPositions == Iterate(p.constrain, n - 1, d.newPositions)
    ensures n % 2 == 0 && n > 0 ==>
              Relax(p, b, d, n).newPositions == Iterate(p.constrain, n, d.newPositions) &&
              Relax(p, b, d, n).positions == Iterate(p.constrain, n - 1, d.newPositions)
    ensures n == 0 ==> Relax(p, b, d, n) == d
  {
    if n > 0 {
      var e := Relax(p, b, d, n - 1);
      RelaxClosedForm(p, b, d, n - 1);
      PassEffect(p, b, n - 1, e);
      assert Relax(p, b, d, n) == Dispatch(p, b, PassKernel(n - 1), e);
      if n % 2 == 1 {
        assert Relax(p, b, d, n) == e.(positions := p.constrain(e.newPositions));
        if n == 1 {
          assert e == d;
        } else {
          assert e.newPositions == Iterate(p.constrain, n - 1, d.newPositions);
        }
      } else {
        assert Relax(p, b, d, n) == e.(newPositions := p.constrain(e.positions));
        assert e.positions == Iterate(p.constrain, n - 1, d.newPositions);
      }
    }
  }

  /** The dispatch sequence of Cloth::step computes exactly StepByRoles of the pre-step
      oldPositions and positions; whatever newPositions and normals held before is irrelevant. */
  lemma StepMatchesRoles(p: Program, b: Bindings, d: Device)
    requires Bound(b)
    ensures StepSpec(p, b, d) == StepByRoles(p, d.oldPositions, d.positions)
  {
    var d1 := Dispatch(p, b, Advance, d);
    assert d1 == d.(newPositions := p.advance(d.oldPositions, d.positions));
    var d2 := Dispatch(p, b, TimeStep, d1);
    assert d2 == d1.(oldPositions := p.timeStep(d.oldPositions, d.positions));
    RelaxClosedForm(p, b, d2, SOLVER_ITERATIONS);
  }

  /** The device state Cloth::reset leaves behind: the flat sheet in oldPositions and positions,
      then one step. */
  function AfterReset(p: Program): Device
  {
    StepByRoles(p, FlatSheet(), FlatSheet())
  }

  /** n consecutive steps. */
  function Steps(p: Program, d: Device, n: nat): Device
  {
    if n == 0 then d
    else
      var e := Steps(p, d, n - 1);
      StepByRoles(p, e.oldPositions, e.positions)
  }
}
