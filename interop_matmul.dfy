/** The GL-interop MatrixMultiplication of src/optimized/MatMul: every frame
    creates CL buffers from the three GL vertex buffers, hands them to CL one
    at a time, runs the kernel, hands them back one at a time and frees them.
    Each CL call's status is checked and the first failure returns. */
module InteropMatMul {
  import opened Interop
  import opened Glut
  import opened MatMulSizing

  /** The CL buffers made from vbo_ma, vbo_mb and vbo_mc. */
  const InputA := Mem("inputBuffer0", 0)
  const InputB := Mem("inputBuffer1", 1)
  const Output := Mem("outputBuffer", 2)

  /** The buffers in the order every phase visits them. */
  const Buffers := [InputA, InputB, Output]

  function SharedObjects(): set<Mem>
  {
    {InputA, InputB, Output}
  }

  /** What follows each hand-off: clFlush, then the wait on its event. */
  const Glue := [Flush, Wait]

  // ---------------------------------------------------------------------
  // The calls of one clKernelRun, step by step. `ok(i)` is the status of
  // the i-th checked call: steps 0-2 create, 3-11 acquire, 12-16 set the
  // arguments, 17-19 launch, 20-28 release and 29-31 free.

  /** clPrepareBuffer: a buffer from each GL vertex buffer. */
  function CreatePlan(): seq<Event>
  {
    [Create(InputA), Create(InputB), Create(Output)]
  }

  /** clFreeBuffer: each buffer released. */
  function FreePlan(): seq<Event>
  {
    [Free(InputA), Free(InputB), Free(Output)]
  }

  /** An event followed by clFlush and the wait on it. */
  function Handoff(e: Event): seq<Event>
  {
    [e, Flush, Wait]
  }

  function AcquirePlan(): seq<Event>
  {
    AcquireAll(Buffers, Glue)
  }

  function ReleasePlan(): seq<Event>
  {
    ReleaseAll(Buffers, Glue)
  }

  /** The bytes of the local reservation `(blockSize*4) * (blockSize*4) *
      sizeof(cl_float)`: the two products are `cl_uint` and wrap, the last
      one is a `size_t` and does not. */
  function LocalBytes(b: nat): nat
  {
    ((b * 4) % U32) * ((b * 4) % U32) % U32 * FloatSize
  }

  /** The five kernel arguments: the three buffers, width0, then either the
      local reservation (lds) or width1. */
  function ArgPlan(lds: bool, b: nat, width0: int, width1: int): seq<Event>
  {
    [ SetArg(Arg(0, MemArg(InputA), HandleBytes)),
      SetArg(Arg(1, MemArg(InputB), HandleBytes)),
      SetArg(Arg(2, MemArg(Output), HandleBytes)),
      SetArg(Arg(3, IntArg(width0), IntBytes)),
      SetArg(if lds then Arg(4, NullArg, LocalBytes(b)) else Arg(4, IntArg(width1), IntBytes)) ]
  }

  /** The two-dimensional launch over all three buffers. */
  function Launched(b: nat, global: (nat, nat)): (e: Event)
    ensures e.Dispatch? && |e.global| == 2 && e.local == [b, b] && e.uses == SharedObjects()
  {
    Dispatch([global.0, global.1], [b, b], SharedObjects())
  }

  function LaunchPlan(b: nat, global: (nat, nat)): seq<Event>
  {
    Handoff(Launched(b, global))
  }

  /** What CL does with the buffers while it holds them. */
  function WorkPlan(lds: bool, b: nat, width0: int, width1: int, global: (nat, nat)): seq<Event>
  {
    ArgPlan(lds, b, width0, width1) + LaunchPlan(b, global)
  }

  /** Everything between clPrepareBuffer and clFreeBuffer. */
  function RunPlan(lds: bool, b: nat, width0: int, width1: int, global: (nat, nat)): seq<Event>
  {
    AcquirePlan() + WorkPlan(lds, b, width0, width1, global) + ReleasePlan()
  }

  /** clSetWorkGroupSize reports success. */
  predicate SizingPasses(blockSize: nat, lim: Limits)
  {
    SizingStatus(SizingOf(blockSize, lim)) == SdkSuccess
  }

  // ---------------------------------------------------------------------
  // The calls that clKernelRun makes, step by step, as the code reaches
  // them: each checked call that fails returns from the function.

  function Hand(acquire: bool, m: Mem): Event
  {
    if acquire then Acquire(m) else Release(m)
  }

  /** Three hand-offs from step `base`, each followed by clFlush and the
      wait on its event. */
  function Chain3(e0: Event, e1: Event, e2: Event, ok: nat -> bool, base: nat): seq<Event>
  {
    var s0, s1, s2 := Steps3(e0, Flush, Wait, ok, base), Steps3(e1, Flush, Wait, ok, base + 3),
                      Steps3(e2, Flush, Wait, ok, base + 6);
    if !All3(ok, base) then s0 else if !All3(ok, base + 3) then s0 + s1 else s0 + s1 + s2
  }

  /** The three hand-offs of one direction, from step `base`. */
  function PhaseCalls(acquire: bool, ok: nat -> bool, base: nat): seq<Event>
  {
    Chain3(Hand(acquire, InputA), Hand(acquire, InputB), Hand(acquire, Output), ok, base)
  }

  predicate PhaseOk(ok: nat -> bool, base: nat)
  {
    All3(ok, base) && All3(ok, base + 3) && All3(ok, base + 6)
  }

  /** The five clSetKernelArg calls from step 12. */
  function ArgCallsMade(lds: bool, b: nat, width0: int, width1: int, ok: nat -> bool): seq<Event>
  {
    var p := ArgPlan(lds, b, width0, width1);
    var front := Steps3(p[0], p[1], p[2], ok, 12);
    if !All3(ok, 12) then front else front + Steps2(p[3], p[4], ok, 15)
  }

  predicate ArgsOk(ok: nat -> bool)
  {
    All3(ok, 12) && All2(ok, 15)
  }

  /** The arguments, then the launch and the wait for the kernel. */
  function ComputeCalls(lds: bool, b: nat, width0: int, width1: int, global: (nat, nat), ok: nat -> bool)
    : seq<Event>
  {
    var args := ArgCallsMade(lds, b, width0, width1, ok);
    if !ArgsOk(ok) then args else args + Steps3(Launched(b, global), Flush, Wait, ok, 17)
  }

  predicate ComputeOk(ok: nat -> bool)
  {
    ArgsOk(ok) && All3(ok, 17)
  }

  /** Hand the buffers over, then compute only when that went through. */
  function HeldCalls(lds: bool, b: nat, width0: int, width1: int, global: (nat, nat), ok: nat -> bool)
    : seq<Event>
  {
    var acquired := PhaseCalls(true, ok, 3);
    if !PhaseOk(ok, 3) then acquired else acquired + ComputeCalls(lds, b, width0, width1, global, ok)
  }

  predicate HeldOk(ok: nat -> bool)
  {
    PhaseOk(ok, 3) && ComputeOk(ok)
  }

  /** Hand over and compute, then hand back only when both went through. */
  function TransferCalls(lds: bool, b: nat, width0: int, width1: int, global: (nat, nat), ok: nat -> bool)
    : seq<Event>
  {
    var held := HeldCalls(lds, b, width0, width1, global, ok);
    if !HeldOk(ok) then held else held + PhaseCalls(false, ok, 20)
  }

  /** Every call from the first acquisition to the last release succeeds. */
  predicate RunOk(ok: nat -> bool)
  {
    HeldOk(ok) && PhaseOk(ok, 20)
  }

  /** The calls of clKernelRun once the work-groups are sized (block size
      `b`, NDRange `global`): the creations, whose failure is ignored, then
      the transfer, and the frees only when the transfer went through. */
  function RunCalls(lds: bool, b: nat, width0: int, width1: int, global: (nat, nat), ok: nat -> bool): seq<Event>
  {
    var created := Steps3(Create(InputA), Create(InputB), Create(Output), ok, 0);
    var moved := TransferCalls(lds, b, width0, width1, global, ok);
    if !RunOk(ok) then created + moved
    else created + moved + Steps3(Free(InputA), Free(InputB), Free(Output), ok, 29)
  }

  /** The calls of clKernelRun: none when the sizing fails. */
  function KernelRunCalls(sized: bool, lds: bool, b: nat, width0: int, width1: int, global: (nat, nat),
                          ok: nat -> bool): seq<Event>
  {
    if !sized then [] else RunCalls(lds, b, width0, width1, global, ok)
  }

  /** clKernelRun's status. */
  function KernelRunStatus(sized: bool, ok: nat -> bool): int
  {
    if sized && RunOk(ok) then SdkSuccess else SdkFailure
  }

  /** glSetupInput uploads fresh data into the two input vertex buffers. */
  function Refresh(firstRun: bool): seq<Event>
  {
    if firstRun then [] else [DrawTouch(InputA), DrawTouch(InputB)]
  }

  /** glDrawArrays reads all three vertex buffers. */
  function Drawn(): seq<Event>
  {
    [DrawTouch(InputA), DrawTouch(InputB), DrawTouch(Output)]
  }

  /** The net number of CL buffers made from `m` by the calls of `t`. */
  function Net(t: seq<Event>, m: Mem): int
  {
    multiset(t)[Create(m)] as int - multiset(t)[Free(m)] as int
  }

  /** Every GL-shared object is with the compute side. */
  predicate AllHeld(own: Ownership)
  {
    forall m :: m in own ==> own[m] == Compute
  }

  // ---------------------------------------------------------------------
  // The calls made are the plan up to its first failure

  /** The hand-over and hand-back phases, one buffer at a time. */
  lemma ThreeObjects()
    ensures AcquirePlan() == [Acquire(InputA), Flush, Wait] + [Acquire(InputB), Flush, Wait] + [Acquire(Output), Flush, Wait]
    ensures ReleasePlan() == [Release(InputA), Flush, Wait] + [Release(InputB), Flush, Wait] + [Release(Output), Flush, Wait]
  {
    assert Buffers[1..] == [InputB, Output];
    TwoObjects(InputB, Output, Glue);
  }

  lemma PlanLengths(lds: bool, b: nat, width0: int, width1: int, global: (nat, nat))
    ensures |AcquirePlan()| == 9 && |ReleasePlan()| == 9 && |WorkPlan(lds, b, width0, width1, global)| == 8
  {
    ThreeObjects();
  }

  lemma Chain3IsUpTo(e0: Event, e1: Event, e2: Event, ok: nat -> bool, base: nat)
    ensures RunsAs([e0, Flush, Wait] + [e1, Flush, Wait] + [e2, Flush, Wait], ok, base,
                   Chain3(e0, e1, e2, ok, base), PhaseOk(ok, base))
  {
    var a, b, c := [e0, Flush, Wait], [e1, Flush, Wait], [e2, Flush, Wait];
    var x, y, z := Steps3(e0, Flush, Wait, ok, base), Steps3(e1, Flush, Wait, ok, base + 3),
                   Steps3(e2, Flush, Wait, ok, base + 6);
    Steps3IsUpTo(e0, Flush, Wait, ok, base);
    Steps3IsUpTo(e1, Flush, Wait, ok, base + 3);
    Steps3IsUpTo(e2, Flush, Wait, ok, base + 6);
    Stages3(a, b, c, x, y, z, All3(ok, base), All3(ok, base + 3), All3(ok, base + 6), ok, base);
  }

  lemma PhaseIsUpTo(acquire: bool, ok: nat -> bool, base: nat)
    ensures RunsAs(if acquire then AcquirePlan() else ReleasePlan(), ok, base, PhaseCalls(acquire, ok, base),
                   PhaseOk(ok, base))
  {
    ThreeObjects();
    Chain3IsUpTo(Hand(acquire, InputA), Hand(acquire, InputB), Hand(acquire, Output), ok, base);
  }

  lemma ArgsIsUpTo(lds: bool, b: nat, width0: int, width1: int, ok: nat -> bool)
    ensures RunsAs(ArgPlan(lds, b, width0, width1), ok, 12, ArgCallsMade(lds, b, width0, width1, ok), ArgsOk(ok))
  {
    var p := ArgPlan(lds, b, width0, width1);
    var front, back := [p[0], p[1], p[2]], [p[3], p[4]];
    assert p == front + back;
    Steps3IsUpTo(p[0], p[1], p[2], ok, 12);
    Steps2IsUpTo(p[3], p[4], ok, 15);
    Stages2(front, back, Steps3(p[0], p[1], p[2], ok, 12), Steps2(p[3], p[4], ok, 15),
            All3(ok, 12), All2(ok, 15), ok, 12);
  }

  lemma ComputeIsUpTo(lds: bool, b: nat, width0: int, width1: int, global: (nat, nat), ok: nat -> bool)
    ensures RunsAs(WorkPlan(lds, b, width0, width1, global), ok, 12,
                   ComputeCalls(lds, b, width0, width1, global, ok), ComputeOk(ok))
  {
    var args, launch := ArgPlan(lds, b, width0, width1), LaunchPlan(b, global);
    ArgsIsUpTo(lds, b, width0, width1, ok);
    Steps3IsUpTo(Launched(b, global), Flush, Wait, ok, 17);
    Stages2(args, launch, ArgCallsMade(lds, b, width0, width1, ok), Steps3(Launched(b, global), Flush, Wait, ok, 17),
            ArgsOk(ok), All3(ok, 17), ok, 12);
  }

  /** The hand-over and the work, as far as they get. */
  lemma HeldIsUpTo(lds: bool, b: nat, width0: int, width1: int, global: (nat, nat), ok: nat -> bool)
    ensures RunsAs(AcquirePlan() + WorkPlan(lds, b, width0, width1, global), ok, 3,
                   HeldCalls(lds, b, width0, width1, global, ok), HeldOk(ok))
  {
    PlanLengths(lds, b, width0, width1, global);
    PhaseIsUpTo(true, ok, 3);
    ComputeIsUpTo(lds, b, width0, width1, global, ok);
    Stages2(AcquirePlan(), WorkPlan(lds, b, width0, width1, global), PhaseCalls(true, ok, 3),
            ComputeCalls(lds, b, width0, width1, global, ok), PhaseOk(ok, 3), ComputeOk(ok), ok, 3);
  }

  lemma TransferIsUpTo(lds: bool, b: nat, width0: int, width1: int, global: (nat, nat), ok: nat -> bool)
    ensures RunsAs(RunPlan(lds, b, width0, width1, global), ok, 3,
                   TransferCalls(lds, b, width0, width1, global, ok), RunOk(ok))
  {
    var held := AcquirePlan() + WorkPlan(lds, b, width0, width1, global);
    PlanLengths(lds, b, width0, width1, global);
    HeldIsUpTo(lds, b, width0, width1, global, ok);
    PhaseIsUpTo(false, ok, 20);
    Stages2(held, ReleasePlan(), HeldCalls(lds, b, width0, width1, global, ok), PhaseCalls(false, ok, 20),
            HeldOk(ok), PhaseOk(ok, 20), ok, 3);
  }

  /** Once the work-groups are sized, clKernelRun makes the calls of its
      plan in order up to the first failure, except that a failed creation
      does not stop it. When a call of the plan fails, the run fails and
      stops there, the buffers not freed. */
  lemma RunStopsEarly(lds: bool, b: nat, width0: int, width1: int, global: (nat, nat), ok: nat -> bool)
    requires !Through(RunPlan(lds, b, width0, width1, global), ok, 3)
    ensures KernelRunStatus(true, ok) == SdkFailure
    ensures RunCalls(lds, b, width0, width1, global, ok) ==
              UpTo(CreatePlan(), ok, 0) + UpTo(RunPlan(lds, b, width0, width1, global), ok, 3)
  {
    TransferIsUpTo(lds, b, width0, width1, global, ok);
    Steps3IsUpTo(Create(InputA), Create(InputB), Create(Output), ok, 0);
  }

  /** When the whole plan goes through, the run succeeds: it makes the
      creations as far as they got, the whole plan, and then the frees as
      far as they get. */
  lemma RunFinishes(lds: bool, b: nat, width0: int, width1: int, global: (nat, nat), ok: nat -> bool)
    requires Through(RunPlan(lds, b, width0, width1, global), ok, 3)
    ensures KernelRunStatus(true, ok) == SdkSuccess
    ensures RunCalls(lds, b, width0, width1, global, ok) ==
              UpTo(CreatePlan(), ok, 0) + RunPlan(lds, b, width0, width1, global) + UpTo(FreePlan(), ok, 29)
  {
    var plan := RunPlan(lds, b, width0, width1, global);
    TransferIsUpTo(lds, b, width0, width1, global, ok);
    WentThrough(plan, ok, 3);
    Steps3IsUpTo(Create(InputA), Create(InputB), Create(Output), ok, 0);
    Steps3IsUpTo(Free(InputA), Free(InputB), Free(Output), ok, 29);
  }

  /** When every call succeeds, clKernelRun makes exactly the planned calls:
      create, hand over, set the arguments, launch, hand back, free. */
  lemma RunFollowsPlan(lds: bool, b: nat, width0: int, width1: int, global: (nat, nat), ok: nat -> bool)
    requires forall i :: 0 <= i < 32 ==> ok(i)
    ensures KernelRunStatus(true, ok) == SdkSuccess
    ensures RunCalls(lds, b, width0, width1, global, ok) == CreatePlan() + RunPlan(lds, b, width0, width1, global) + FreePlan()
  {
    PlanLengths(lds, b, width0, width1, global);
    WentThrough(CreatePlan(), ok, 0);
    WentThrough(FreePlan(), ok, 29);
    RunFinishes(lds, b, width0, width1, global, ok);
  }

  // ---------------------------------------------------------------------
  // What a run does to the buffers

  lemma NetConcat(s: seq<Event>, t: seq<Event>, m: Mem)
    ensures Net(s + t, m) == Net(s, m) + Net(t, m)
  {
    assert multiset(s + t) == multiset(s) + multiset(t);
  }

  /** Calls that neither create nor free a buffer leave the count alone. */
  lemma NoBuffers(t: seq<Event>)
    requires forall e :: e in t ==> !e.Create? && !e.Free?
    ensures forall m :: Net(t, m) == 0
  {
    forall m ensures Net(t, m) == 0 {
      assert Create(m) !in t && Free(m) !in t;
    }
  }

  /** Between clPrepareBuffer and clFreeBuffer no buffer is made or freed. */
  lemma RunMakesNoBuffers(lds: bool, b: nat, width0: int, width1: int, global: (nat, nat))
    ensures forall m :: Net(RunPlan(lds, b, width0, width1, global), m) == 0
  {
    PhaseMembers(Buffers, Glue);
    NoBuffers(RunPlan(lds, b, width0, width1, global));
  }

  /** clPrepareBuffer makes one buffer from each shared object, and
      clFreeBuffer frees each once. */
  lemma CreateFreeCount(m: Mem)
    ensures Net(CreatePlan(), m) == (if m in SharedObjects() then 1 else 0)
    ensures Net(FreePlan(), m) == (if m in SharedObjects() then -1 else 0)
  {
  }

  /** Every run that goes through frees each buffer it created. */
  lemma SuccessfulRunFreesAll(lds: bool, b: nat, width0: int, width1: int, global: (nat, nat))
    ensures forall m :: Net(CreatePlan() + RunPlan(lds, b, width0, width1, global) + FreePlan(), m) == 0
  {
    var run := RunPlan(lds, b, width0, width1, global);
    RunMakesNoBuffers(lds, b, width0, width1, global);
    forall m ensures Net(CreatePlan() + run + FreePlan(), m) == 0 {
      NetConcat(CreatePlan(), run, m);
      NetConcat(CreatePlan() + run, FreePlan(), m);
      CreateFreeCount(m);
    }
  }

  /** With every buffer held by CL, the arguments and the launch are
      allowed and hand nothing over. */
  lemma WorkQuiet(own: Ownership, lds: bool, b: nat, width0: int, width1: int, global: (nat, nat))
    requires AllDrawn(own, Buffers)
    ensures Quiet(Holding(own, Buffers), WorkPlan(lds, b, width0, width1, global))
  {
    var held := Holding(own, Buffers);
    assert Buffers[0] == InputA && Buffers[1] == InputB && Buffers[2] == Output;
    HoldingSpec(own, Buffers);
    assert InputA in held && held[InputA] == Compute;
    assert InputB in held && held[InputB] == Compute;
    assert Output in held && held[Output] == Compute;
    assert Allowed(held, Launched(b, global));
  }

  /** A run whose every call succeeds hands each buffer to CL and back with
      every call allowed where it happens, and leaves every object with GL. */
  lemma SuccessfulRunBalanced(own: Ownership, lds: bool, b: nat, width0: int, width1: int, global: (nat, nat))
    requires AllDrawn(own, Buffers)
    ensures var t := CreatePlan() + RunPlan(lds, b, width0, width1, global) + FreePlan();
      Legal(own, t) && Replay(own, t) == own
  {
    var work := WorkPlan(lds, b, width0, width1, global);
    assert forall o :: Quiet(o, Glue);
    WorkQuiet(own, lds, b, width0, width1, global);
    Bracket(own, CreatePlan(), Buffers, Glue, work, FreePlan());
    AppendAssoc(CreatePlan(), AcquirePlan() + work, ReleasePlan());
    AppendAssoc(CreatePlan(), AcquirePlan(), work);
  }

  /** In such a run the buffers are handed over in the order A, B, C and
      handed back in the same order. */
  lemma SuccessfulRunOrder(lds: bool, b: nat, width0: int, width1: int, global: (nat, nat))
    ensures var t := CreatePlan() + RunPlan(lds, b, width0, width1, global) + FreePlan();
      Acquired(t) == Buffers && Released(t) == Buffers
  {
    var work := WorkPlan(lds, b, width0, width1, global);
    assert forall o :: Quiet(o, Glue);
    assert forall i :: 0 <= i < |work| ==> Neutral(work[i]);
    BracketOrder(CreatePlan(), Buffers, Glue, work, FreePlan());
    AppendAssoc(CreatePlan(), AcquirePlan() + work, ReleasePlan());
    AppendAssoc(CreatePlan(), AcquirePlan(), work);
  }

  /** A run that has acquired all three buffers but then fails to set an
      argument or to launch returns at once: its calls are the creations,
      the acquisitions and a prefix of the work. */
  lemma FailedRunCalls(lds: bool, b: nat, width0: int, width1: int, global: (nat, nat), ok: nat -> bool)
    requires All3(ok, 0) && PhaseOk(ok, 3) && !ComputeOk(ok)
    ensures KernelRunStatus(true, ok) == SdkFailure
    ensures var c := ComputeCalls(lds, b, width0, width1, global, ok);
      RunCalls(lds, b, width0, width1, global, ok) == CreatePlan() + AcquirePlan() + c
      && c == WorkPlan(lds, b, width0, width1, global)[..|c|]
  {
    PhaseIsUpTo(true, ok, 3);
    WentThrough(AcquirePlan(), ok, 3);
    ComputeIsUpTo(lds, b, width0, width1, global, ok);
  }

  /** Creating the buffers and then acquiring all three is legal and
      leaves CL holding every one of them. */
  lemma CreateThenAcquire(own: Ownership)
    requires AllDrawn(own, Buffers)
    ensures Legal(own, CreatePlan() + AcquirePlan())
    ensures Replay(own, CreatePlan() + AcquirePlan()) == Holding(own, Buffers)
  {
    assert Quiet(own, CreatePlan());
    QuietStretch(own, CreatePlan());
    assert forall o :: Quiet(o, Glue);
    AcquirePhase(own, Buffers, Glue);
    LegalConcat(own, CreatePlan(), AcquirePlan());
    ReplayConcat(own, CreatePlan(), AcquirePlan());
  }

  /** With all three buffers acquired, CL holds every shared object. */
  lemma HoldingAll(own: Ownership)
    requires AllDrawn(own, Buffers) && own.Keys == SharedObjects()
    ensures AllHeld(Holding(own, Buffers)) && !Allowed(Holding(own, Buffers), DrawTouch(InputA))
  {
    HoldingSpec(own, Buffers);
  }

  /** Such a run leaves CL holding every buffer, so glDrawArrays may not
      touch them. */
  lemma FailedRunLeavesBuffersHeld(own: Ownership, lds: bool, b: nat, width0: int, width1: int,
                                   global: (nat, nat), ok: nat -> bool)
    requires AllDrawn(own, Buffers) && own.Keys == SharedObjects()
    requires All3(ok, 0) && PhaseOk(ok, 3) && !ComputeOk(ok)
    ensures var t := RunCalls(lds, b, width0, width1, global, ok);
      Legal(own, t) && AllHeld(Replay(own, t)) && !Allowed(Replay(own, t), DrawTouch(InputA))
  {
    var c := ComputeCalls(lds, b, width0, width1, global, ok);
    var held := Holding(own, Buffers);
    FailedRunCalls(lds, b, width0, width1, global, ok);
    CreateThenAcquire(own);
    WorkQuiet(own, lds, b, width0, width1, global);
    assert Quiet(held, c);
    QuietStretch(held, c);
    LegalConcat(own, CreatePlan() + AcquirePlan(), c);
    ReplayConcat(own, CreatePlan() + AcquirePlan(), c);
    HoldingAll(own);
  }

  /** Calls after clPrepareBuffer that neither create nor free a buffer
      leave each of the three buffers allocated. */
  lemma CreatedStay(x: seq<Event>)
    requires forall e :: e in x ==> !e.Create? && !e.Free?
    ensures forall m :: m in SharedObjects() ==> Net(CreatePlan() + x, m) == 1
  {
    NoBuffers(x);
    forall m | m in SharedObjects() ensures Net(CreatePlan() + x, m) == 1 {
      NetConcat(CreatePlan(), x, m);
      CreateFreeCount(m);
    }
  }

  /** ... and the three buffers it created stay allocated. */
  lemma FailedRunLeaks(lds: bool, b: nat, width0: int, width1: int, global: (nat, nat), ok: nat -> bool)
    requires All3(ok, 0) && PhaseOk(ok, 3) && !ComputeOk(ok)
    ensures forall m :: m in SharedObjects() ==> Net(RunCalls(lds, b, width0, width1, global, ok), m) == 1
  {
    var c := ComputeCalls(lds, b, width0, width1, global, ok);
    var work := WorkPlan(lds, b, width0, width1, global);
    FailedRunCalls(lds, b, width0, width1, global, ok);
    PhaseMembers(Buffers, Glue);
    assert forall e :: e in c ==> e in work;
    AppendAssoc(CreatePlan(), AcquirePlan(), c);
    CreatedStay(AcquirePlan() + c);
  }

  /** Cleanup runs clFreeBuffer once more: after a run that freed its
      buffers, each one is released a second time. */
  lemma CleanupFreesTwice(lds: bool, b: nat, width0: int, width1: int, global: (nat, nat), ok: nat -> bool)
    requires forall i :: 0 <= i < 32 ==> ok(i)
    ensures forall m :: m in SharedObjects() ==> Net(RunCalls(lds, b, width0, width1, global, ok) + FreePlan(), m) == -1
  {
    var run := RunPlan(lds, b, width0, width1, global);
    RunFollowsPlan(lds, b, width0, width1, global, ok);
    SuccessfulRunFreesAll(lds, b, width0, width1, global);
    forall m | m in SharedObjects() ensures Net(CreatePlan() + run + FreePlan() + FreePlan(), m) == -1 {
      NetConcat(CreatePlan() + run + FreePlan(), FreePlan(), m);
      CreateFreeCount(m);
    }
  }

  /** The local reservation is 64 * b * b bytes as long as (b * 4)^2 fits in
      32 bits; at b = 16384 it wraps to nothing. */
  lemma LocalBytesWrap(b: nat)
    ensures b < 16384 ==> LocalBytes(b) == 64 * b * b
    ensures LocalBytes(16384) == 0
  {
    if b < 16384 {
      var x := b * 4;
      MulLess(x, 65536);
      assert x * x * 4 == 64 * b * b;
    }
  }

  lemma MulLess(x: nat, y: nat)
    requires x < y
    ensures x * x < y * y
  {
    assert x * x <= x * y;
  }

  // ---------------------------------------------------------------------
  // The process

  class MatrixMultiplication {
    const pool: ResourcePool
    var n: int
    var m: int
    var k: int
    var blockSize: nat
    var width0: int
    var height0: int
    var width1: int
    var height1: int
    var globalThreads: (nat, nat)
    var localThreads: (nat, nat)
    var availableLocalMemory: nat
    var neededLocalMemory: nat
    var lds: bool
    /** first_run: read by glInit and glDisplayFunc, never assigned there. */
    const firstRun: bool
    /** The process has died on a division by zero. */
    var crashed: bool
    /** The process has gone through exit(). */
    var exited: bool
    /** glDrawArrays would now touch a buffer that CL holds; the model
        follows the program no further. */
    ghost var stalled: bool

    ghost predicate Valid()
      reads this, pool
    {
      pool.Valid() && pool.initial.Keys == SharedObjects() && blockSize < U32
    }

    /** Running, with every GL-shared object back with GL. */
    ghost predicate Running()
      reads this, pool
    {
      Valid() && !exited && !crashed && !stalled && Settled(pool.owner)
    }

    /** The object as the command-line parser leaves it. */
    constructor (n: int, m: int, k: int, blockSize: nat, lds: bool, firstRun: bool)
      requires blockSize < U32
      ensures Running() && fresh(pool) && pool.trace == []
      ensures this.n == n && this.m == m && this.k == k && this.blockSize == blockSize
      ensures this.lds == lds && this.firstRun == firstRun
    {
      pool := new ResourcePool(SharedObjects());
      this.n, this.m, this.k := n, m, k;
      this.blockSize := blockSize;
      this.lds, this.firstRun := lds, firstRun;
      width0, height0, width1, height1 := 0, 0, 0, 0;
      globalThreads, localThreads := (0, 0), (0, 0);
      availableLocalMemory, neededLocalMemory := 0, 0;
      crashed, exited := false, false;
      stalled := false;
    }

    /** Setup: a zero dimension fails; otherwise n, m and k are rounded up to
        multiples of blockSize * 4 and the matrix shapes follow. */
    method Setup() returns (status: int)
      requires Valid() && !crashed
      modifies this`n, this`m, this`k, this`width0, this`height0, this`width1, this`height1, this`crashed
      ensures Valid()
      ensures match SetupDims(Dims(old(n), old(m), old(k)), blockSize)
              case ZeroDimension =>
                status == SdkFailure && !crashed && n == old(n) && m == old(m) && k == old(k)
              case DivisionByZero => crashed
              case Sized(d) =>
                status == SdkSuccess && !crashed && n == d.n && m == d.m && k == d.k
                && width0 == m && height0 == n && width1 == k && height1 == m
    {
      if n == 0 || m == 0 || k == 0 {
        return SdkFailure;
      }
      var step := (blockSize * VectorSize) % U32;
      if step == 0 {
        crashed := true;
        return SdkFailure;
      }
      n := RoundUp(n, step);
      m := RoundUp(m, step);
      k := RoundUp(k, step);
      width0, height0 := m, n;
      width1, height1 := k, m;
      return SdkSuccess;
    }

    /** clSetWorkGroupSize: the NDRange, then the local-memory check (whose
        failure is reported as a success), the 8/4 ladder and the device
        limits. */
    method ClSetWorkGroupSize(lim: Limits) returns (status: int)
      requires Valid() && Fits(lim)
      modifies this`blockSize, this`globalThreads, this`localThreads, this`availableLocalMemory,
               this`neededLocalMemory
      ensures Valid()
      ensures status == SizingStatus(SizingOf(old(blockSize), lim))
      ensures blockSize == BlockAfter(old(blockSize), lim)
      ensures globalThreads == GlobalFor(width1, height0) && localThreads == (blockSize, blockSize)
      ensures lim.infoOk ==> availableLocalMemory == Available(lim) && neededLocalMemory == Needed(old(blockSize))
      ensures !lim.infoOk ==>
                availableLocalMemory == old(availableLocalMemory) && neededLocalMemory == old(neededLocalMemory)
    {
      globalThreads := GlobalFor(width1, height0);
      localThreads := (blockSize, blockSize);
      if !lim.infoOk {
        return SdkFailure;
      }
      availableLocalMemory := (lim.localMemSize - lim.localMemoryUsed) % U64;
      neededLocalMemory := (2 * blockSize * blockSize % U32) * FloatSize;
      if neededLocalMemory > availableLocalMemory {
        return SdkSuccess;
      }
      if localThreads.0 * localThreads.1 % U32 > lim.kernelWorkGroupSize {
        if lim.kernelWorkGroupSize >= 64 {
          blockSize := 8;
          localThreads := (blockSize, blockSize);
        } else if lim.kernelWorkGroupSize >= 32 {
          blockSize := 4;
          localThreads := (blockSize, blockSize);
        } else {
          return SdkFailure;
        }
      }
      if localThreads.0 > lim.maxWorkItemSizes0 || localThreads.1 > lim.maxWorkItemSizes1
         || localThreads.0 * localThreads.1 > lim.maxWorkGroupSize {
        return SdkFailure;
      }
      return SdkSuccess;
    }

    /** Three checked calls in a row, the first failure returning; only the
        first may need or change ownership. */
    method Checked3(e0: Event, e1: Event, e2: Event, ok: nat -> bool, base: nat) returns (done: bool)
      requires Valid() && Bookkeeping(e1) && Bookkeeping(e2)
      requires ok(base) ==> Allowed(pool.owner, e0)
      modifies pool
      ensures Valid()
      ensures done == All3(ok, base)
      ensures pool.trace == old(pool.trace) + Steps3(e0, e1, e2, ok, base)
      ensures pool.owner == if ok(base) then Apply(old(pool.owner), e0) else old(pool.owner)
    {
      if !ok(base) {
        return false;
      }
      pool.Emit(e0);
      if !ok(base + 1) {
        return false;
      }
      pool.Emit(e1);
      if !ok(base + 2) {
        return false;
      }
      pool.Emit(e2);
      return true;
    }

    /** Two checked bookkeeping calls in a row. */
    method Checked2(e0: Event, e1: Event, ok: nat -> bool, base: nat) returns (done: bool)
      requires Valid() && Bookkeeping(e0) && Bookkeeping(e1)
      modifies pool
      ensures Valid() && pool.owner == old(pool.owner)
      ensures done == All2(ok, base)
      ensures pool.trace == old(pool.trace) + Steps2(e0, e1, ok, base)
    {
      if !ok(base) {
        return false;
      }
      pool.Emit(e0);
      if !ok(base + 1) {
        return false;
      }
      pool.Emit(e1);
      return true;
    }

    /** clPrepareBuffer: create the three buffers, stopping at the first
        failure. */
    method PrepareBuffer(ok: nat -> bool) returns (status: int)
      requires Valid()
      modifies pool
      ensures Valid() && pool.owner == old(pool.owner)
      ensures status == (if All3(ok, 0) then SdkSuccess else SdkFailure)
      ensures pool.trace == old(pool.trace) + Steps3(Create(InputA), Create(InputB), Create(Output), ok, 0)
    {
      var done := Checked3(Create(InputA), Create(InputB), Create(Output), ok, 0);
      return if done then SdkSuccess else SdkFailure;
    }

    /** clFreeBuffer: release the three buffers, stopping at the first
        failure. */
    method FreeBuffer(ok: nat -> bool, base: nat) returns (status: int)
      requires Valid()
      modifies pool
      ensures Valid() && pool.owner == old(pool.owner)
      ensures status == (if All3(ok, base) then SdkSuccess else SdkFailure)
      ensures pool.trace == old(pool.trace) + Steps3(Free(InputA), Free(InputB), Free(Output), ok, base)
    {
      var done := Checked3(Free(InputA), Free(InputB), Free(Output), ok, base);
      return if done then SdkSuccess else SdkFailure;
    }

    /** Acquire (or release) A, B and C in turn, each followed by clFlush and
        the wait on its event; afterwards CL (or GL) holds everything. */
    method HandOver(acquire: bool, ok: nat -> bool, base: nat) returns (done: bool)
      requires Valid()
      requires acquire ==> Settled(pool.owner)
      requires !acquire ==> AllHeld(pool.owner)
      modifies pool
      ensures Valid()
      ensures done == PhaseOk(ok, base)
      ensures pool.trace == old(pool.trace) + PhaseCalls(acquire, ok, base)
      ensures done && acquire ==> AllHeld(pool.owner)
      ensures done && !acquire ==> Settled(pool.owner)
    {
      ghost var t0 := pool.trace;
      ghost var s0 := Steps3(Hand(acquire, InputA), Flush, Wait, ok, base);
      ghost var s1 := Steps3(Hand(acquire, InputB), Flush, Wait, ok, base + 3);
      done := Checked3(Hand(acquire, InputA), Flush, Wait, ok, base);
      if !done {
        return;
      }
      done := Checked3(Hand(acquire, InputB), Flush, Wait, ok, base + 3);
      if !done {
        AppendAssoc(t0, s0, s1);
        return;
      }
      done := Checked3(Hand(acquire, Output), Flush, Wait, ok, base + 6);
      AppendAssoc(t0, s0, s1);
      AppendAssoc(t0, s0 + s1, Steps3(Hand(acquire, Output), Flush, Wait, ok, base + 6));
    }

    /** The five clSetKernelArg calls, the first failure returning. */
    method SetArguments(ok: nat -> bool) returns (done: bool)
      requires Valid()
      modifies pool
      ensures Valid() && pool.owner == old(pool.owner)
      ensures done == ArgsOk(ok)
      ensures pool.trace == old(pool.trace) + ArgCallsMade(lds, blockSize, width0, width1, ok)
    {
      var p := ArgPlan(lds, blockSize, width0, width1);
      done := Checked3(p[0], p[1], p[2], ok, 12);
      if !done {
        return;
      }
      done := Checked2(p[3], p[4], ok, 15);
    }

    /** The arguments, then the launch, clFlush and the wait for the
        kernel's event; CL must hold every buffer the kernel uses. */
    method Compute(ok: nat -> bool) returns (done: bool)
      requires Valid() && AllHeld(pool.owner) && pool.owner.Keys == SharedObjects()
      modifies pool
      ensures Valid() && pool.owner == old(pool.owner)
      ensures done == ComputeOk(ok)
      ensures pool.trace == old(pool.trace) + ComputeCalls(lds, blockSize, width0, width1, globalThreads, ok)
    {
      done := SetArguments(ok);
      if !done {
        return;
      }
      done := Checked3(Launched(blockSize, globalThreads), Flush, Wait, ok, 17);
    }

    /** Acquire the three buffers, then compute. */
    method Hold(ok: nat -> bool) returns (done: bool)
      requires Valid() && Settled(pool.owner)
      modifies pool
      ensures Valid()
      ensures done == HeldOk(ok)
      ensures pool.trace == old(pool.trace) + HeldCalls(lds, blockSize, width0, width1, globalThreads, ok)
      ensures done ==> AllHeld(pool.owner)
    {
      ghost var t0 := pool.trace;
      done := HandOver(true, ok, 3);
      if !done {
        return;
      }
      done := Compute(ok);
      AppendAssoc(t0, PhaseCalls(true, ok, 3), ComputeCalls(lds, blockSize, width0, width1, globalThreads, ok));
    }

    /** Acquire, compute and release, the first failure returning. */
    method Transfer(ok: nat -> bool) returns (done: bool)
      requires Valid() && Settled(pool.owner)
      modifies pool
      ensures Valid()
      ensures done == RunOk(ok)
      ensures pool.trace == old(pool.trace) + TransferCalls(lds, blockSize, width0, width1, globalThreads, ok)
      ensures done ==> Settled(pool.owner)
    {
      ghost var t0 := pool.trace;
      done := Hold(ok);
      if !done {
        return;
      }
      done := HandOver(false, ok, 20);
      AppendAssoc(t0, HeldCalls(lds, blockSize, width0, width1, globalThreads, ok), PhaseCalls(false, ok, 20));
    }

    /** Everything after the sizing: create the buffers ignoring the
        outcome, transfer, and free them when the transfer went through. */
    method Run(ok: nat -> bool) returns (status: int)
      requires Valid() && Settled(pool.owner)
      modifies pool
      ensures Valid()
      ensures status == KernelRunStatus(true, ok)
      ensures pool.trace == old(pool.trace) + RunCalls(lds, blockSize, width0, width1, globalThreads, ok)
      ensures status == SdkSuccess ==> Settled(pool.owner)
    {
      ghost var t0 := pool.trace;
      ghost var created := Steps3(Create(InputA), Create(InputB), Create(Output), ok, 0);
      ghost var moved := TransferCalls(lds, blockSize, width0, width1, globalThreads, ok);
      var _ := PrepareBuffer(ok);
      var done := Transfer(ok);
      AppendAssoc(t0, created, moved);
      if !done {
        return SdkFailure;
      }
      var _ := FreeBuffer(ok, 29);
      AppendAssoc(t0, created + moved, Steps3(Free(InputA), Free(InputB), Free(Output), ok, 29));
      return SdkSuccess;
    }

    /** clKernelRun: size the work-groups (a failure returns before anything
        is created), then run. */
    method KernelRun(lim: Limits, ok: nat -> bool) returns (status: int)
      requires Valid() && Settled(pool.owner) && Fits(lim)
      modifies this`blockSize, this`globalThreads, this`localThreads, this`availableLocalMemory,
               this`neededLocalMemory, pool
      ensures Valid()
      ensures blockSize == BlockAfter(old(blockSize), lim)
      ensures globalThreads == GlobalFor(width1, height0) && localThreads == (blockSize, blockSize)
      ensures status == KernelRunStatus(SizingPasses(old(blockSize), lim), ok)
      ensures pool.trace == old(pool.trace) +
                KernelRunCalls(SizingPasses(old(blockSize), lim), lds, blockSize, width0, width1, globalThreads, ok)
      ensures status == SdkSuccess || !SizingPasses(old(blockSize), lim) ==> Settled(pool.owner)
    {
      status := ClSetWorkGroupSize(lim);
      if status != SdkSuccess {
        return SdkFailure;
      }
      status := Run(ok);
    }

    /** glSetupInput after the first frame: fresh data is uploaded into the
        two input vertex buffers, which GL must hold. */
    method SetupInput()
      requires Valid() && Settled(pool.owner)
      modifies pool
      ensures Valid() && pool.owner == old(pool.owner)
      ensures pool.trace == old(pool.trace) + Refresh(false)
    {
      pool.Emit(DrawTouch(InputA));
      pool.Emit(DrawTouch(InputB));
    }

    /** glDrawArrays over all three vertex buffers; the model follows the
        program only while GL holds them. */
    method Draw()
      requires Valid() && !stalled
      modifies pool, this`stalled
      ensures Valid() && pool.owner == old(pool.owner)
      ensures stalled <==> !Settled(pool.owner)
      ensures pool.trace == old(pool.trace) + (if stalled then [] else Drawn())
    {
      if Settled(pool.owner) {
        pool.Emit(DrawTouch(InputA));
        pool.Emit(DrawTouch(InputB));
        pool.Emit(DrawTouch(Output));
      } else {
        stalled := true;
      }
    }

    /** glDisplayFunc: unless this is the first run, fresh input is uploaded;
        then clKernelRun, whose status is ignored, and glDrawArrays. */
    method DisplayFunc(lim: Limits, ok: nat -> bool)
      requires Running() && Fits(lim)
      modifies this`blockSize, this`globalThreads, this`localThreads, this`availableLocalMemory,
               this`neededLocalMemory, this`stalled, pool
      ensures Valid() && !exited && !crashed
      ensures blockSize == BlockAfter(old(blockSize), lim)
      ensures globalThreads == GlobalFor(width1, height0) && localThreads == (blockSize, blockSize)
      ensures pool.trace == old(pool.trace) + Refresh(firstRun)
                + KernelRunCalls(SizingPasses(old(blockSize), lim), lds, blockSize, width0, width1, globalThreads, ok)
                + (if stalled then [] else Drawn())
      ensures stalled <==> !Settled(pool.owner)
      ensures KernelRunStatus(SizingPasses(old(blockSize), lim), ok) == SdkSuccess ==> !stalled
    {
      ghost var t0 := pool.trace;
      if !firstRun {
        SetupInput();
      }
      assert pool.trace == t0 + Refresh(firstRun);
      var _ := KernelRun(lim, ok);
      Draw();
    }

    /** Cleanup: clFreeBuffer once more, its outcome ignored; always
        reports success. */
    method Cleanup(ok: nat -> bool) returns (status: int)
      requires Valid()
      modifies pool
      ensures Valid() && pool.owner == old(pool.owner)
      ensures status == SdkSuccess
      ensures pool.trace == old(pool.trace) + Steps3(Free(InputA), Free(InputB), Free(Output), ok, 0)
    {
      var _ := FreeBuffer(ok, 0);
      return SdkSuccess;
    }

    /** glKeyboardFunc: Escape, 'q' and 'Q' clean up and exit with 0, since
        Cleanup never fails; every other key is ignored. */
    method KeyboardFunc(key: char, ok: nat -> bool) returns (out: Outcome)
      requires Valid() && !exited
      modifies this`exited, pool
      ensures Valid()
      ensures (key == Escape || key == 'q' || key == 'Q') ==>
                out == Exit(0) && exited
                && pool.trace == old(pool.trace) + Steps3(Free(InputA), Free(InputB), Free(Output), ok, 0)
      ensures !(key == Escape || key == 'q' || key == 'Q') ==>
                out == Continue && !exited && pool.trace == old(pool.trace)
    {
      if key == Escape || key == 'q' || key == 'Q' {
        var status := Cleanup(ok);
        exited := true;
        if status != SdkSuccess {
          return Exit(1);
        }
        return Exit(0);
      }
      return Continue;
    }
  }
}
