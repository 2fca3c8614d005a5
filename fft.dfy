/** The frame controller of the FFT sample (src/optimized/FFT/FFT.cpp): one
    real and one imaginary buffer of DataElemCount floats, transformed in
    place by one kernel per gated frame. */
module FFT {
  import opened Interop
  import opened Glut
  import opened CommandLine

  const InitialWindow := 128                      // Width and Height before the first Reshape
  const DataElemCount := 128 * 128                // DataWidth * DataHeight, fixed at load time
  const LocalSize := 64                           // local[0] of the dispatch

  /** ComputeInputOutputReal. */
  const Real := Mem("ComputeInputOutputReal", 0)
  /** ComputeInputOutputImaginary. */
  const Imag := Mem("ComputeInputOutputImaginary", 0)
  /** The vertex buffers VboRealID and VboImaginnaryID. */
  const VboReal := Mem("VboRealID", 0)
  const VboImag := Mem("VboImaginnaryID", 0)

  /** The GL-shared objects: in shared mode both compute buffers are made
      from the vertex buffers. */
  function SharedObjects(mode: Mode): set<Mem>
  {
    if mode == Shared then {Real, Imag} else {}
  }

  /** The objects GL draws from and uploads into: the compute buffers
      themselves in shared mode, the vertex buffers in copy mode. */
  function Vertices(mode: Mode): (vs: seq<Mem>)
    ensures |vs| == 2 && vs[0] != vs[1]
    ensures forall i :: 0 <= i < 2 ==> (vs[i] in SharedObjects(mode) <==> mode == Shared)
  {
    if mode == Shared then [Real, Imag] else [VboReal, VboImag]
  }

  /** UpdateVBOs, and equally glDrawArrays: GL touches the real then the
      imaginary vertex data. */
  function Touches(mode: Mode): seq<Event>
  {
    [DrawTouch(Vertices(mode)[0]), DrawTouch(Vertices(mode)[1])]
  }

  /** DataElemCount * sizeof(float): every transfer moves a whole array. */
  const DataBytes := DataElemCount * FloatBytes

  // ---------------------------------------------------------------------
  // One gated frame of Recompute

  /** The two kernel arguments: the real buffer as argument 0 and the
      imaginary one as argument 1. */
  const ArgTable: seq<Arg> := [Arg(0, MemArg(Real), HandleBytes), Arg(1, MemArg(Imag), HandleBytes)]

  /** The calls before the kernel, up to the first failure: the real then the
      imaginary buffer acquired (shared mode) or written from the host
      arrays (copy mode). */
  function FetchCalls(mode: Mode, r: Replies): seq<Event>
  {
    var one := if mode == Shared then Acquire(Real) else Write(Real, DataBytes);
    var two := if mode == Shared then Acquire(Imag) else Write(Imag, DataBytes);
    if !r.transfer(0) then []
    else if !r.transfer(1) then [one]
    else [one, two]
  }

  predicate FetchOk(r: Replies)
  {
    r.transfer(0) && r.transfer(1)
  }

  /** The dispatch: one work item per element, in groups of LocalSize, over
      the GL-shared objects. */
  function Launched(mode: Mode): (e: Event)
    ensures e.Dispatch? && e.global == [DataElemCount] && e.local == [LocalSize]
    ensures e.global[0] % e.local[0] == 0 && e.global[0] / e.local[0] == 256
    ensures e.uses == SharedObjects(mode)
  {
    Dispatch([DataElemCount], [LocalSize], SharedObjects(mode))
  }

  /** -10 when an argument call fails, else the enqueue status. */
  function LaunchStatus(r: Replies): (err: int)
    ensures err == 0 <==> AllSet(ArgTable, r.arg) && r.enqueue == 0
    ensures err != 0 ==> err == -10 || err == r.enqueue
  {
    if !AllSet(ArgTable, r.arg) then -10 else r.enqueue
  }

  /** Both argument calls (made in full, the failures OR-ed together), then
      the dispatch if the launch succeeds. */
  function LaunchCalls(mode: Mode, r: Replies): seq<Event>
  {
    ArgCalls(ArgTable, r.arg) + (if LaunchStatus(r) == 0 then [Launched(mode)] else [])
  }

  /** The calls after the kernel (transfers 2 and 3), up to the first
      failure: the real then the imaginary buffer released (shared mode), or
      both read back into the host arrays and uploaded to the vertex buffers
      (copy mode). */
  function HandCalls(mode: Mode, r: Replies): seq<Event>
  {
    var one := if mode == Shared then Release(Real) else Read(Real, DataBytes);
    var two := if mode == Shared then Release(Imag) else Read(Imag, DataBytes);
    if !r.transfer(2) then []
    else if !r.transfer(3) then [one]
    else if mode == Shared then [one, two]
    else [one, two] + Touches(Copy)
  }

  predicate HandOk(r: Replies)
  {
    r.transfer(2) && r.transfer(3)
  }

  /** The status of a gated frame: EXIT_FAILURE (1) for a failed transfer,
      otherwise the launch status. */
  function FrameStatus(r: Replies): (err: int)
    ensures err == 0 <==> FetchOk(r) && AllSet(ArgTable, r.arg) && r.enqueue == 0 && HandOk(r)
    ensures err != 0 ==> err == 1 || err == -10 || err == r.enqueue
  {
    if !FetchOk(r) then 1
    else if LaunchStatus(r) != 0 then LaunchStatus(r)
    else if !HandOk(r) then 1
    else 0
  }

  /** The calls of a gated frame, up to the first failure. */
  function FrameCalls(mode: Mode, r: Replies): seq<Event>
  {
    if !FetchOk(r) then [GlFinish] + FetchCalls(mode, r)
    else if LaunchStatus(r) != 0 then [GlFinish] + FetchCalls(mode, r) + LaunchCalls(mode, r)
    else if !HandOk(r) then [GlFinish] + FetchCalls(mode, r) + LaunchCalls(mode, r) + HandCalls(mode, r)
    else [GlFinish] + FetchCalls(mode, r) + LaunchCalls(mode, r) + HandCalls(mode, r) + [Finish]
  }

  /** The status of Recompute: success without a kernel or without a gated
      frame. */
  function RecomputeStatus(ready: bool, gated: bool, r: Replies): int
  {
    if ready && gated then FrameStatus(r) else 0
  }

  /** The calls of Recompute: the gated frame, or nothing at all. */
  function RecomputeCalls(ready: bool, gated: bool, mode: Mode, r: Replies): seq<Event>
  {
    if ready && gated then FrameCalls(mode, r) else []
  }

  /** The calls of a gated frame that gets through. */
  function FramePlan(mode: Mode): seq<Event>
  {
    var fetch := if mode == Shared then [Acquire(Real), Acquire(Imag)]
                 else [Write(Real, DataBytes), Write(Imag, DataBytes)];
    var hand := if mode == Shared then [Release(Real), Release(Imag)]
                else [Read(Real, DataBytes), Read(Imag, DataBytes)] + Touches(Copy);
    [GlFinish] + fetch + ArgEvents(ArgTable) + [Launched(mode)] + hand + [Finish]
  }

  /** When every call succeeds, the calls made are the plan. */
  lemma {:induction false} FrameFollowsPlan(mode: Mode, r: Replies)
    requires FrameStatus(r) == 0
    ensures FrameCalls(mode, r) == FramePlan(mode)
  {
    ArgCallsAllSet(ArgTable, r.arg);
  }

  /** In shared mode a frame that gets through is a legal hand-off: the real
      then the imaginary buffer is acquired before the arguments and the
      dispatch and released in the same order, and GL holds both again
      afterwards. */
  lemma SharedFrameBalanced(own: Ownership)
    requires Real in own && own[Real] == Draw && Imag in own && own[Imag] == Draw
    ensures var plan := FramePlan(Shared);
            Legal(own, plan) && Replay(own, plan) == own
            && Acquired(plan) == [Real, Imag] && Released(plan) == [Real, Imag]
  {
    var ms := [Real, Imag];
    var args := ArgEvents(ArgTable);
    var work := args + [Launched(Shared)];
    var plan := FramePlan(Shared);
    TwoObjects(Real, Imag, []);
    assert plan == [GlFinish] + AcquireAll(ms, []) + work + ReleaseAll(ms, []) + [Finish];
    assert Distinct(ms) && AllDrawn(own, ms);
    ArgCallsQuiet(ArgTable, a => true);
    HoldingSpec(own, ms);
    assert Quiet(Holding(own, ms), work) by {
      assert Quiet(Holding(own, ms), args);
      forall i | 0 <= i < |work|
        ensures Neutral(work[i]) && Allowed(Holding(own, ms), work[i])
      {
        if i < |args| {
          assert work[i] == args[i];
        }
      }
    }
    Bracket(own, [GlFinish], ms, [], work, [Finish]);
    BracketOrder([GlFinish], ms, [], work, [Finish]);
  }

  /** In copy mode every frame that gets through writes both host arrays
      before the dispatch and reads both back after it, whole. */
  lemma CopyFrameRoundTrip(r: Replies)
    requires FrameStatus(r) == 0
    ensures var calls := FrameCalls(Copy, r);
            |calls| == 11
            && calls[1] == Write(Real, DataBytes) && calls[2] == Write(Imag, DataBytes)
            && calls[5] == Launched(Copy)
            && calls[6] == Read(Real, DataBytes) && calls[7] == Read(Imag, DataBytes)
            && forall i :: 0 <= i < 5 ==> !calls[i].Read? && !calls[i].Dispatch?
  {
    FrameFollowsPlan(Copy, r);
    var all: nat -> bool := a => true;
    assert ArgTable[..|ArgTable| - 1] == [ArgTable[0]];
    assert [ArgTable[0]][..0] == [];
    assert ArgCalls([ArgTable[0]], all) == [SetArg(ArgTable[0])];
    assert ArgEvents(ArgTable) == [SetArg(ArgTable[0]), SetArg(ArgTable[1])];
  }

  /** A frame stopped by a failed argument call makes no dispatch, in either
      mode. */
  lemma {:induction false} ArgFailureStopsDispatch(mode: Mode, r: Replies)
    requires FetchOk(r) && !AllSet(ArgTable, r.arg)
    ensures FrameStatus(r) == -10
    ensures forall i :: 0 <= i < |FrameCalls(mode, r)| ==> !FrameCalls(mode, r)[i].Dispatch?
  {
    var calls := FrameCalls(mode, r);
    var args := ArgCalls(ArgTable, r.arg);
    ArgCallsQuiet(ArgTable, r.arg);
    assert calls == [GlFinish] + FetchCalls(mode, r) + args;
    forall i | 0 <= i < |calls| ensures !calls[i].Dispatch? {
      if i >= 3 {
        assert calls[i] == args[i - 3];
      }
    }
  }

  // ---------------------------------------------------------------------
  // The controller

  /** The host arrays InitData fills with random input. */
  const DataReal := "DataReal"
  const DataImaginary := "DataImaginary"

  /** The calls of InitData, given the handles it finds: each host array freed
      when non-null, then allocated again. */
  function InitDataCalls(re: Handle, im: Handle): seq<Event>
  {
    ReleaseThrough(re, HostFree(DataReal)) + [HostAlloc(DataReal)]
    + ReleaseThrough(im, HostFree(DataImaginary)) + [HostAlloc(DataImaginary)]
  }

  /** The calls of an Initialize that succeeds: InitData, the glFinish before
      the kernel is set up, and the closing clFlush. */
  function InitCalls(re: Handle, im: Handle): seq<Event>
  {
    InitDataCalls(re, im) + [GlFinish, Flush]
  }

  /** Cleanup's calls: the teardown (clFinish, and the kernel, program, queue,
      both buffers and context released), then both host arrays freed; a null
      handle makes its free do nothing. */
  function CleanupCalls(re: Handle, im: Handle): seq<Event>
  {
    [Restart] + ReleaseThrough(re, HostFree(DataReal)) + ReleaseThrough(im, HostFree(DataImaginary))
  }

  /** Reshape's rebuild: Cleanup, then an Initialize that finds both host
      handles still holding what Cleanup freed. */
  function RebuildCalls(re: Handle, im: Handle): seq<Event>
  {
    CleanupCalls(re, im) + InitCalls(Dangle(re), Dangle(im))
  }

  /** The rebuild of a built sample, call by call. */
  function BuiltRebuild(): seq<Event>
  {
    [Restart, HostFree(DataReal), HostFree(DataImaginary),
     HostFree(DataReal), HostAlloc(DataReal), HostFree(DataImaginary), HostAlloc(DataImaginary),
     GlFinish, Flush]
  }

  lemma RebuildOfBuilt()
    ensures RebuildCalls(Live, Live) == BuiltRebuild()
  {
  }

  /** The two host arrays have different names. */
  lemma HostArraysDistinct()
    ensures DataReal != DataImaginary
  {
    assert DataReal[4] != DataImaginary[4];
  }

  lemma RebuildFreesRealTwice()
    ensures DoubleFree(BuiltRebuild(), true, HostAlloc(DataReal), HostFree(DataReal))
  {
    HostArraysDistinct();
    var fr, ar, fi, ai := HostFree(DataReal), HostAlloc(DataReal), HostFree(DataImaginary), HostAlloc(DataImaginary);
    assert BuiltRebuild() == [Restart] + [fr] + [fi] + [fr] + [ar, fi, ai, GlFinish, Flush];
    FreedAgain([Restart], [fi], [ar, fi, ai, GlFinish, Flush], true, ar, fr);
  }

  lemma RebuildFreesImaginaryTwice()
    ensures DoubleFree(BuiltRebuild(), true, HostAlloc(DataImaginary), HostFree(DataImaginary))
  {
    HostArraysDistinct();
    var fr, ar, fi, ai := HostFree(DataReal), HostAlloc(DataReal), HostFree(DataImaginary), HostAlloc(DataImaginary);
    assert BuiltRebuild() == [Restart, fr] + [fi] + [fr, ar] + [fi] + [ai, GlFinish, Flush];
    FreedAgain([Restart, fr], [fr, ar], [ai, GlFinish, Flush], true, ai, fi);
  }

  /** A rebuild of a built sample (both host arrays live) frees DataReal and
      DataImaginary a second time, because Cleanup frees them without
      resetting the handles and InitData frees whatever they hold. */
  lemma RebuildFreesTwice()
    ensures var t := RebuildCalls(Live, Live);
            DoubleFree(t, true, HostAlloc(DataReal), HostFree(DataReal))
            && DoubleFree(t, true, HostAlloc(DataImaginary), HostFree(DataImaginary))
  {
    RebuildOfBuilt();
    RebuildFreesRealTwice();
    RebuildFreesImaginaryTwice();
  }

  /** What Initialize meets: everything set up, or a failure that calls
      exit(code) -- in SetupGraphics, SetupComputeDevices or SetupGLProgram,
      before InitData (`dataMade` false), or in a later step, after it
      (`dataMade` true). */
  datatype InitReply = Ready | Abort(code: int, dataMade: bool)

  /** Whether Initialize gets as far as InitData. */
  predicate MakesData(reply: InitReply)
  {
    reply.Ready? || reply.dataMade
  }

  /** The process-wide state of the sample. */
  class Controller {
    const mode: Mode
    const pool: ResourcePool
    var animated: bool
    var update: bool
    var width: nat
    var height: nat
    /** Elements in each of the host arrays DataReal and DataImaginary, which
        InitData sizes Width by Height. */
    var hostElems: nat
    var ndRangeCount: nat
    var showInfo: nat
    var showStats: nat
    /** ComputeKernel is non-null. */
    var computeReady: bool
    /** The handles of the host arrays DataReal and DataImaginary. */
    var dataReal: Handle
    var dataImaginary: Handle
    /** The process has gone through exit(). */
    var exited: bool

    /** With a kernel, both host arrays are live. */
    ghost predicate Valid()
      reads this, pool
    {
      pool.Valid() && pool.initial.Keys == SharedObjects(mode)
      && (computeReady ==> dataReal == Live && dataImaginary == Live)
    }

    /** Running, with every GL-shared object back with GL. */
    ghost predicate Running()
      reads this, pool
    {
      Valid() && !exited && Settled(pool.owner)
    }

    /** The static initial values, before main runs. */
    constructor (mode: Mode)
      ensures Running() && this.mode == mode && fresh(pool) && pool.trace == []
      ensures !animated && update && width == InitialWindow && height == InitialWindow
      ensures hostElems == 0 && ndRangeCount == 0 && showInfo == 1 && showStats == 1 && !computeReady
      ensures dataReal == Null && dataImaginary == Null
    {
      this.mode := mode;
      pool := new ResourcePool(SharedObjects(mode));
      animated, update := false, true;
      width, height := InitialWindow, InitialWindow;
      hostElems, ndRangeCount := 0, 0;
      showInfo, showStats := 1, 1;
      computeReady := false;
      dataReal, dataImaginary := Null, Null;
      exited := false;
    }

    /** Initialize: InitData remakes the host arrays at the window size, GL
        is drained with glFinish, the kernel and buffers are set up and the
        queue flushed; every failure ends the process with exit(code). */
    method Initialize(reply: InitReply) returns (out: Outcome)
      requires Running()
      modifies this`hostElems, this`dataReal, this`dataImaginary, this`computeReady, this`exited, pool
      ensures Running() || exited
      ensures MakesData(reply) ==> hostElems == width * height && dataReal == Live && dataImaginary == Live
      ensures !MakesData(reply) ==>
                hostElems == old(hostElems) && dataReal == old(dataReal) && dataImaginary == old(dataImaginary)
                && pool.trace == old(pool.trace)
      ensures reply.Ready? ==> out == Continue && Running() && computeReady
                               && pool.trace == old(pool.trace) + InitCalls(old(dataReal), old(dataImaginary))
      ensures reply.Abort? ==> out == Exit(reply.code) && exited
    {
      if reply.Abort? && !reply.dataMade {
        exited := true;
        return Exit(reply.code);
      }
      ghost var t0 := pool.trace;
      InitData();
      if reply.Abort? {
        exited := true;
        return Exit(reply.code);
      }
      pool.Emit(GlFinish);
      pool.Emit(Flush);
      AppendAssoc(t0, InitDataCalls(old(dataReal), old(dataImaginary)), [GlFinish, Flush]);
      computeReady := true;
      return Continue;
    }

    /** InitData: each host array freed when non-null and allocated again at
        the window size. */
    method InitData()
      requires Running()
      modifies this`hostElems, this`dataReal, this`dataImaginary, pool
      ensures Running() && pool.owner == old(pool.owner)
      ensures hostElems == width * height && dataReal == Live && dataImaginary == Live
      ensures pool.trace == old(pool.trace) + InitDataCalls(old(dataReal), old(dataImaginary))
    {
      hostElems := width * height;
      pool.EmitThrough(dataReal, HostFree(DataReal));
      pool.Emit(HostAlloc(DataReal));
      dataReal := Live;
      pool.EmitThrough(dataImaginary, HostFree(DataImaginary));
      pool.Emit(HostAlloc(DataImaginary));
      dataImaginary := Live;
    }

    /** main up to the event loop: the device switches, then Initialize,
        which either succeeds or does not return. */
    method Start(argv: seq<string>, reply: InitReply) returns (out: Outcome, useGpu: int)
      requires Running() && !computeReady
      modifies this`hostElems, this`dataReal, this`dataImaginary, this`computeReady, this`exited, pool
      ensures useGpu == DeviceAfter(Kinds(argv, DeviceNames))
      ensures MakesData(reply) ==> hostElems == width * height && dataReal == Live && dataImaginary == Live
      ensures !MakesData(reply) ==> hostElems == old(hostElems) && pool.trace == old(pool.trace)
      ensures reply.Ready? ==> out == Continue && Running() && computeReady
                               && pool.trace == old(pool.trace) + InitCalls(old(dataReal), old(dataImaginary))
      ensures reply.Abort? ==> out == Exit(reply.code) && exited
    {
      useGpu := ParseDevice(argv);
      out := Initialize(reply);
    }

    /** Recompute: without a kernel, or when neither Animated nor Update
        holds, nothing happens; otherwise one gated frame. */
    method Recompute(r: Replies) returns (err: int)
      requires Running()
      modifies this`update, this`ndRangeCount, pool
      ensures Valid()
      ensures err == RecomputeStatus(computeReady, animated || old(update), r)
      ensures pool.trace == old(pool.trace) + RecomputeCalls(computeReady, animated || old(update), mode, r)
      ensures err == 0 ==> Settled(pool.owner)
      ensures ndRangeCount == old(ndRangeCount)
                              + (if computeReady && (animated || old(update)) && FetchOk(r) && LaunchStatus(r) == 0
                                 then 1 else 0)
      ensures update == (old(update) && !(computeReady && FetchOk(r)))
    {
      if !computeReady || !(animated || update) {
        return 0;
      }
      err := Frame(r);
    }

    /** The gated part of Recompute: hand the buffers over, clear Update, set
        the arguments, dispatch, count the dispatch, hand the buffers back,
        clFinish. */
    method Frame(r: Replies) returns (err: int)
      requires Running()
      modifies this`update, this`ndRangeCount, pool
      ensures Valid()
      ensures err == FrameStatus(r)
      ensures pool.trace == old(pool.trace) + FrameCalls(mode, r)
      ensures err == 0 ==> Settled(pool.owner)
      ensures ndRangeCount == old(ndRangeCount) + (if FetchOk(r) && LaunchStatus(r) == 0 then 1 else 0)
      ensures update == (old(update) && !FetchOk(r))
    {
      ghost var t0 := pool.trace;
      pool.Emit(GlFinish);
      ghost var fetch := FetchCalls(mode, r);
      var ok := TakeBuffers(r);
      AppendAssoc(t0, [GlFinish], fetch);
      if !ok {
        return 1;
      }
      update := false;
      ghost var launch := LaunchCalls(mode, r);
      err := Launch(r);
      AppendAssoc(t0, [GlFinish] + fetch, launch);
      if err != 0 {
        return err;
      }
      ghost var hand := HandCalls(mode, r);
      ok := GiveBuffers(r);
      AppendAssoc(t0, [GlFinish] + fetch + launch, hand);
      if !ok {
        return 1;
      }
      pool.Emit(Finish);
      AppendAssoc(t0, [GlFinish] + fetch + launch + hand, [Finish]);
    }

    /** Acquire (shared mode) or write (copy mode) the real then the
        imaginary buffer. */
    method TakeBuffers(r: Replies) returns (ok: bool)
      requires Valid() && Settled(pool.owner)
      modifies pool
      ensures Valid()
      ensures ok == FetchOk(r)
      ensures pool.trace == old(pool.trace) + FetchCalls(mode, r)
      ensures ok && mode == Shared ==>
                Real in pool.owner && pool.owner[Real] == Compute && Imag in pool.owner && pool.owner[Imag] == Compute
      ensures mode == Copy ==> pool.owner == old(pool.owner)
    {
      ok := r.transfer(0);
      if !ok {
        return;
      }
      if mode == Shared {
        pool.Emit(Acquire(Real));
      } else {
        pool.Emit(Write(Real, DataBytes));
      }
      ok := r.transfer(1);
      if !ok {
        return;
      }
      if mode == Shared {
        pool.Emit(Acquire(Imag));
      } else {
        pool.Emit(Write(Imag, DataBytes));
      }
    }

    /** The two arguments, the enqueue, and the count of dispatches. */
    method Launch(r: Replies) returns (err: int)
      requires Valid()
      requires mode == Shared ==>
                 Real in pool.owner && pool.owner[Real] == Compute && Imag in pool.owner && pool.owner[Imag] == Compute
      modifies this`ndRangeCount, pool
      ensures Valid() && pool.owner == old(pool.owner)
      ensures err == LaunchStatus(r)
      ensures pool.trace == old(pool.trace) + LaunchCalls(mode, r)
      ensures ndRangeCount == old(ndRangeCount) + (if err == 0 then 1 else 0)
    {
      var failed := SetArgs(pool, ArgTable, r.arg);
      if failed {
        return -10;
      }
      if r.enqueue != 0 {
        return r.enqueue;
      }
      pool.Emit(Launched(mode));
      ndRangeCount := ndRangeCount + 1;
      return 0;
    }

    /** Release (shared mode) the real then the imaginary buffer, or read
        both back and run UpdateVBOs (copy mode). */
    method GiveBuffers(r: Replies) returns (ok: bool)
      requires Valid()
      requires mode == Shared ==>
                 Real in pool.owner && pool.owner[Real] == Compute && Imag in pool.owner && pool.owner[Imag] == Compute
      requires mode == Copy ==> Settled(pool.owner)
      modifies pool
      ensures Valid()
      ensures ok == HandOk(r)
      ensures pool.trace == old(pool.trace) + HandCalls(mode, r)
      ensures ok ==> Settled(pool.owner)
    {
      ok := r.transfer(2);
      if !ok {
        return;
      }
      if mode == Shared {
        pool.Emit(Release(Real));
      } else {
        pool.Emit(Read(Real, DataBytes));
      }
      ok := r.transfer(3);
      if !ok {
        return;
      }
      if mode == Shared {
        pool.Emit(Release(Imag));
      } else {
        pool.Emit(Read(Imag, DataBytes));
        Touch();
      }
    }

    /** UpdateVBOs, and the glDrawArrays of Display_: GL touches the real then
        the imaginary vertex data. */
    method Touch()
      requires Valid() && Settled(pool.owner)
      modifies pool
      ensures Valid() && pool.owner == old(pool.owner)
      ensures pool.trace == old(pool.trace) + Touches(mode)
    {
      var vs := Vertices(mode);
      pool.Emit(DrawTouch(vs[0]));
      pool.Emit(DrawTouch(vs[1]));
    }

    /** Display_: when Animated, new host data is uploaded to the vertex
        buffers; Recompute is called on every frame and a failure ends the
        process with exit(1); then the points are drawn and the info banner
        counted down. */
    method Display(r: Replies) returns (out: Outcome)
      requires Running()
      modifies this`update, this`ndRangeCount, this`showInfo, this`exited, pool
      ensures Running() || exited
      ensures out == Continue || out == Exit(1)
      ensures out == Continue <==> RecomputeStatus(computeReady, animated || old(update), r) == 0
      ensures out == Exit(1) ==> exited
      ensures ndRangeCount == old(ndRangeCount)
                              + (if computeReady && (animated || old(update)) && FetchOk(r) && LaunchStatus(r) == 0
                                 then 1 else 0)
      ensures update == (old(update) && !(computeReady && FetchOk(r)))
      ensures out == Continue ==>
                Running() && showInfo == NextInfo(old(showInfo))
                && pool.trace == old(pool.trace) + (if animated then Touches(mode) else [])
                                 + RecomputeCalls(computeReady, animated || old(update), mode, r) + Touches(mode)
    {
      ghost var t0 := pool.trace;
      if animated {
        Touch();
      }
      assert pool.trace == t0 + (if animated then Touches(mode) else []);
      var err := Recompute(r);
      if err != 0 {
        exited := true;
        return Exit(1);
      }
      Touch();
      ReportInfo();
      return Continue;
    }

    /** ReportInfo: while the info banner is up, count the frames it has
        been up. */
    method ReportInfo()
      modifies this`showInfo
      ensures showInfo == NextInfo(old(showInfo))
    {
      if showInfo != 0 {
        showInfo := if showInfo > 200 then 0 else showInfo + 1;
      }
    }

    /** Keyboard: Escape exits; space toggles the animation and raises the
        banner; 'i' and 's' toggle the banners. Every other key asks for a
        new frame. */
    method Keyboard(key: char) returns (out: Outcome)
      requires Running()
      modifies this`animated, this`showInfo, this`showStats, this`update, this`exited
      ensures out == Exit(0) <==> key == Escape
      ensures key == Escape ==> exited
      ensures key != Escape ==> out == Continue && Running() && update
      ensures key == ' ' ==> animated == !old(animated) && showInfo == 1
      ensures key != ' ' ==> animated == old(animated)
      ensures key == 'i' ==> showInfo == Toggle(old(showInfo))
      ensures key == 's' ==> showStats == Toggle(old(showStats))
      ensures key !in {' ', 'i'} ==> showInfo == old(showInfo)
      ensures key != 's' ==> showStats == old(showStats)
    {
      if key == Escape {
        exited := true;
        return Exit(0);
      } else if key == ' ' {
        animated := !animated;
        showInfo := 1;
      } else if key == 'i' {
        showInfo := Toggle(showInfo);
      } else if key == 's' {
        showStats := Toggle(showStats);
      }
      update := true;
      return Continue;
    }

    /** Reshape: a window that outgrows twice the current size tears the
        compute side down and builds it again at the new size (Initialize
        either succeeds or ends the process, so the Shutdown branch is never
        taken); the new size is kept in every case. DataElemCount, and with
        it every transfer and the dispatch, keeps its load-time value. */
    method Reshape(w: nat, h: nat, reply: InitReply) returns (out: Outcome)
      requires Running()
      modifies this`width, this`height, this`hostElems, this`dataReal, this`dataImaginary,
               this`computeReady, this`exited, pool
      ensures Running() || exited
      ensures width == w && height == h
      ensures !Outgrows(w, h, old(width), old(height)) ==>
                out == Continue && Running() && pool.trace == old(pool.trace)
                && computeReady == old(computeReady) && hostElems == old(hostElems)
                && dataReal == old(dataReal) && dataImaginary == old(dataImaginary)
      ensures Outgrows(w, h, old(width), old(height)) ==>
                hostElems == (if MakesData(reply) then w * h else old(hostElems))
                && match reply
                   case Ready => out == Continue && Running() && computeReady
                                 && pool.trace == old(pool.trace) + RebuildCalls(old(dataReal), old(dataImaginary))
                   case Abort(code, _) => out == Exit(code) && exited
      ensures Outgrows(w, h, old(width), old(height)) && reply.Ready? && old(computeReady) ==>
                var t := pool.trace[|old(pool.trace)|..];
                DoubleFree(t, true, HostAlloc(DataReal), HostFree(DataReal))
                && DoubleFree(t, true, HostAlloc(DataImaginary), HostFree(DataImaginary))
    {
      out := Continue;
      if Outgrows(w, h, width, height) {
        width, height := w, h;
        out := Rebuild(reply);
      }
      width, height := w, h;
    }

    /** The rebuild in Reshape: Cleanup, then Initialize. Rebuilding a built
        sample frees both host arrays a second time. */
    method Rebuild(reply: InitReply) returns (out: Outcome)
      requires Running()
      modifies this`hostElems, this`dataReal, this`dataImaginary, this`computeReady, this`exited, pool
      ensures Running() || exited
      ensures hostElems == if MakesData(reply) then width * height else old(hostElems)
      ensures reply.Ready? ==> out == Continue && Running() && computeReady
                               && pool.trace == old(pool.trace) + RebuildCalls(old(dataReal), old(dataImaginary))
      ensures reply.Abort? ==> out == Exit(reply.code) && exited
      ensures reply.Ready? && old(computeReady) ==>
                var t := pool.trace[|old(pool.trace)|..];
                DoubleFree(t, true, HostAlloc(DataReal), HostFree(DataReal))
                && DoubleFree(t, true, HostAlloc(DataImaginary), HostFree(DataImaginary))
    {
      ghost var t0 := pool.trace;
      ghost var re, im, built := dataReal, dataImaginary, computeReady;
      Cleanup();
      out := Initialize(reply);
      if reply.Ready? {
        AppendAssoc(t0, CleanupCalls(re, im), InitCalls(Dangle(re), Dangle(im)));
        if built {
          RebuildFreesTwice();
        }
      }
    }

    /** Cleanup: the teardown, then both host arrays freed. The queue,
        kernel, program, buffers and context are nulled; DataReal and
        DataImaginary are left holding what was freed. */
    method Cleanup()
      requires Running()
      modifies this`dataReal, this`dataImaginary, this`computeReady, pool
      ensures Running() && !computeReady
      ensures pool.trace == old(pool.trace) + CleanupCalls(old(dataReal), old(dataImaginary))
      ensures dataReal == Dangle(old(dataReal)) && dataImaginary == Dangle(old(dataImaginary))
    {
      pool.Emit(Restart);
      pool.EmitThrough(dataReal, HostFree(DataReal));
      pool.EmitThrough(dataImaginary, HostFree(DataImaginary));
      dataReal, dataImaginary := Dangle(dataReal), Dangle(dataImaginary);
      computeReady := false;
    }
  }

  /** After a rebuild the host arrays InitData allocates again follow the
      window while the transfers keep DataElemCount elements: a window of 300
      by 10 outgrows the initial one yet leaves arrays of 3000 elements behind
      16384-element transfers. */
  lemma RebuildShrinksHostArrays()
    ensures Outgrows(300, 10, InitialWindow, InitialWindow) && 300 * 10 < DataElemCount
  {
  }
}
