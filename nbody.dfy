/** The frame controller of the NBody sample (src/naive/NBody/NBody.cpp): the
    particles live in two position and two velocity buffers that swap roles
    every frame; the kernel reads one pair and writes the other. */
module NBody {
  import opened Interop
  import opened Glut
  import opened CommandLine

  const GroupSize := 128          // GroupSize, never reassigned
  const WorkGroupItems := 32      // WorkGroupItems
  const InitialCount := 1024      // DataParticleCount and DataBodyCount before InitData
  const InitialWindow := 512      // WindowWidth and WindowHeight before the first Reshape

  /** ComputePosBuffer[i]. */
  function Pos(i: nat): Mem
  {
    Mem("ComputePosBuffer", i)
  }

  /** ComputeVelBuffer[i]. */
  function Vel(i: nat): Mem
  {
    Mem("ComputeVelBuffer", i)
  }

  /** The vertex buffer VboPosID[i]. */
  function Vbo(i: nat): Mem
  {
    Mem("VboPosID", i)
  }

  /** The GL-shared objects: in shared mode the position buffers are made
      from the vertex buffers; the velocity buffers are never shared. */
  function SharedObjects(mode: Mode): set<Mem>
  {
    if mode == Shared then {Pos(0), Pos(1)} else {}
  }

  /** What glDrawArrays draws position set i from: the position buffer itself
      in shared mode, its vertex buffer in copy mode. */
  function Drawn(mode: Mode, i: nat): Mem
  {
    if mode == Shared then Pos(i) else Vbo(i)
  }

  // ---------------------------------------------------------------------
  // InitData and SetupComputeKernel

  /** InitData: the particle count is raised to GroupSize when below it and
      rounded down to a multiple of GroupSize. */
  function RoundCount(count: int): (r: nat)
    ensures r % GroupSize == 0 && GroupSize <= r
    ensures count < GroupSize ==> r == GroupSize
    ensures count >= GroupSize ==> r <= count < r + GroupSize
  {
    var c := if count < GroupSize then GroupSize else count;
    (c / GroupSize) * GroupSize
  }

  /** The rounded count is the largest multiple of GroupSize not above the
      raised count. */
  lemma RoundCountGreatest(count: int, m: int)
    requires m % GroupSize == 0 && m <= (if count < GroupSize then GroupSize else count)
    ensures m <= RoundCount(count)
  {
  }

  /** Initialize runs InitData again on every rebuild: a rounded count is
      left as it is. */
  lemma RoundCountStable(count: int)
    ensures RoundCount(RoundCount(count)) == RoundCount(count)
  {
    var r := RoundCount(count);
    RoundCountGreatest(r, r);
  }

  /** SetupComputeKernel: WorkGroupSize[0] is the kernel limit divided by
      WorkGroupItems when the limit is above 1, else the limit itself. */
  function WorkGroupFor(maxWorkGroupSize: nat): (w: nat)
    ensures maxWorkGroupSize > 1 ==> w * WorkGroupItems <= maxWorkGroupSize < (w + 1) * WorkGroupItems
    ensures maxWorkGroupSize <= 1 ==> w == maxWorkGroupSize
  {
    if maxWorkGroupSize > 1 then maxWorkGroupSize / WorkGroupItems else maxWorkGroupSize
  }

  // ---------------------------------------------------------------------
  // The ping-pong index

  /** (CurrentBuffer + 1) % 2: the buffer pair the kernel writes. */
  function Other(i: nat): (j: nat)
    ensures i < 2 ==> j < 2 && j != i
  {
    (i + 1) % 2
  }

  /** The current buffer after `k` frames that switch. */
  function BufferAfter(i: nat, k: nat): nat
    decreases k
  {
    if k == 0 then i else Other(BufferAfter(i, k - 1))
  }

  /** From CurrentBuffer = 0 the buffers alternate: after k switches the
      current one is k % 2. */
  lemma {:induction false} Alternates(k: nat)
    ensures BufferAfter(0, k) == k % 2
    decreases k
  {
    if k > 0 {
      Alternates(k - 1);
    }
  }

  // ---------------------------------------------------------------------
  // One frame of Recompute

  /** The per-frame kernel arguments: position and velocity read at `cur`
      (arguments 0 and 1) and written at the other buffer (5 and 6). */
  function ArgTable(cur: nat): seq<Arg>
  {
    [Arg(0, MemArg(Pos(cur)), HandleBytes),
     Arg(1, MemArg(Vel(cur)), HandleBytes),
     Arg(5, MemArg(Pos(Other(cur))), HandleBytes),
     Arg(6, MemArg(Vel(Other(cur))), HandleBytes)]
  }

  /** The kernel never reads a buffer it writes. */
  lemma ReadsApartFromWrites(cur: nat)
    requires cur < 2
    ensures forall i, j :: 0 <= i < 2 <= j < 4 ==> ArgTable(cur)[i].value != ArgTable(cur)[j].value
  {
    var next := Other(cur);
    assert Pos(cur) != Pos(next) && Vel(cur) != Vel(next);
  }

  /** 4 * sizeof(float) * DataBodyCount: one float4 per body. */
  function PosBytes(bodies: nat): nat
  {
    4 * FloatBytes * bodies
  }

  /** DataParticleCount * sizeof(float): what the copy-mode read-back asks
      for. */
  function ReadBackBytes(particles: nat): nat
  {
    particles * FloatBytes
  }

  /** The read-back fetches a quarter of the position buffer: one float per
      body where the buffer holds four. */
  lemma ReadBackIsQuarter(bodies: nat)
    requires bodies > 0
    ensures 4 * ReadBackBytes(bodies) == PosBytes(bodies) && ReadBackBytes(bodies) < PosBytes(bodies)
  {
  }

  /** How many of the frame's transfers come before the kernel: two acquires
      in shared mode, two writes in copy mode on the first dispatch, none
      otherwise. */
  function FetchCount(mode: Mode, first: bool): nat
  {
    if mode == Shared || first then 2 else 0
  }

  /** The calls before the kernel, up to the first failure: the current then
      the next position buffer acquired (shared mode) or written with the
      host data (copy mode, first dispatch only). */
  function FetchCalls(mode: Mode, cur: nat, first: bool, bodies: nat, r: Replies): seq<Event>
  {
    var one := if mode == Shared then Acquire(Pos(cur)) else Write(Pos(cur), PosBytes(bodies));
    var two := if mode == Shared then Acquire(Pos(Other(cur))) else Write(Pos(Other(cur)), PosBytes(bodies));
    if FetchCount(mode, first) == 0 || !r.transfer(0) then []
    else if !r.transfer(1) then [one]
    else [one, two]
  }

  predicate FetchOk(mode: Mode, first: bool, r: Replies)
  {
    FetchCount(mode, first) == 0 || (r.transfer(0) && r.transfer(1))
  }

  /** The dispatch: DataBodyCount work items in groups of GroupSize. */
  function Launched(mode: Mode, bodies: nat): Event
  {
    Dispatch([bodies], [GroupSize], SharedObjects(mode))
  }

  /** -10 when an argument call fails, else the enqueue status. */
  function LaunchStatus(cur: nat, r: Replies): (err: int)
    ensures err == 0 <==> AllSet(ArgTable(cur), r.arg) && r.enqueue == 0
    ensures err != 0 ==> err == -10 || err == r.enqueue
  {
    if !AllSet(ArgTable(cur), r.arg) then -10 else r.enqueue
  }

  /** The four argument calls (all made, the failures OR-ed together), then
      the dispatch if the launch succeeds. */
  function LaunchCalls(mode: Mode, cur: nat, bodies: nat, r: Replies): seq<Event>
  {
    ArgCalls(ArgTable(cur), r.arg) + (if LaunchStatus(cur, r) == 0 then [Launched(mode, bodies)] else [])
  }

  /** The calls after the kernel, from transfer `base`, up to the first
      failure: the two position buffers released in the order they were
      acquired (shared mode), or the next buffer read back and uploaded to its
      vertex buffer (copy mode). */
  function HandCalls(mode: Mode, cur: nat, base: nat, particles: nat, r: Replies): seq<Event>
  {
    var next := Other(cur);
    if !r.transfer(base) then []
    else if mode == Shared then
      (if r.transfer(base + 1) then [Release(Pos(cur)), Release(Pos(next))] else [Release(Pos(cur))])
    else [Read(Pos(next), ReadBackBytes(particles)), DrawTouch(Vbo(next))]
  }

  predicate HandOk(mode: Mode, base: nat, r: Replies)
  {
    r.transfer(base) && (mode == Copy || r.transfer(base + 1))
  }

  /** The status of a gated frame: EXIT_FAILURE (1) for a failed transfer,
      otherwise the launch status. */
  function FrameStatus(mode: Mode, cur: nat, first: bool, r: Replies): (err: int)
    ensures err == 0 <==> FetchOk(mode, first, r) && AllSet(ArgTable(cur), r.arg) && r.enqueue == 0
                          && HandOk(mode, FetchCount(mode, first), r)
    ensures err != 0 ==> err == 1 || err == -10 || err == r.enqueue
  {
    if !FetchOk(mode, first, r) then 1
    else if LaunchStatus(cur, r) != 0 then LaunchStatus(cur, r)
    else if !HandOk(mode, FetchCount(mode, first), r) then 1
    else 0
  }

  /** The calls of a gated frame, up to the first failure. */
  function FrameCalls(mode: Mode, cur: nat, first: bool, bodies: nat, particles: nat, r: Replies): seq<Event>
  {
    if !FetchOk(mode, first, r) then [GlFinish] + FetchCalls(mode, cur, first, bodies, r)
    else if LaunchStatus(cur, r) != 0 then
      [GlFinish] + FetchCalls(mode, cur, first, bodies, r) + LaunchCalls(mode, cur, bodies, r)
    else if !HandOk(mode, FetchCount(mode, first), r) then
      [GlFinish] + FetchCalls(mode, cur, first, bodies, r) + LaunchCalls(mode, cur, bodies, r)
      + HandCalls(mode, cur, FetchCount(mode, first), particles, r)
    else
      [GlFinish] + FetchCalls(mode, cur, first, bodies, r) + LaunchCalls(mode, cur, bodies, r)
      + HandCalls(mode, cur, FetchCount(mode, first), particles, r) + [Finish]
  }

  /** The status of Recompute: success without a kernel or without a gated
      frame. */
  function RecomputeStatus(ready: bool, gated: bool, mode: Mode, cur: nat, first: bool, r: Replies): int
  {
    if ready && gated then FrameStatus(mode, cur, first, r) else 0
  }

  /** The calls of Recompute: nothing without a kernel; the gated frame if
      any, then, unless it failed, the new index passed to the shader. */
  function RecomputeCalls(ready: bool, gated: bool, mode: Mode, cur: nat, first: bool, bodies: nat,
                          particles: nat, r: Replies): seq<Event>
  {
    if !ready then []
    else if !gated then [Uniform(Other(cur))]
    else if FrameStatus(mode, cur, first, r) != 0 then FrameCalls(mode, cur, first, bodies, particles, r)
    else FrameCalls(mode, cur, first, bodies, particles, r) + [Uniform(Other(cur))]
  }

  /** The calls of a gated frame that gets through. */
  function FramePlan(mode: Mode, cur: nat, first: bool, bodies: nat, particles: nat): seq<Event>
  {
    var next := Other(cur);
    var fetch := if mode == Shared then [Acquire(Pos(cur)), Acquire(Pos(next))]
                 else if first then [Write(Pos(cur), PosBytes(bodies)), Write(Pos(next), PosBytes(bodies))]
                 else [];
    var hand := if mode == Shared then [Release(Pos(cur)), Release(Pos(next))]
                else [Read(Pos(next), ReadBackBytes(particles)), DrawTouch(Vbo(next))];
    [GlFinish] + fetch + ArgEvents(ArgTable(cur)) + [Launched(mode, bodies)] + hand + [Finish]
  }

  /** When every call succeeds, the calls made are the plan. */
  lemma {:induction false} FrameFollowsPlan(mode: Mode, cur: nat, first: bool, bodies: nat, particles: nat,
                                            r: Replies)
    requires FrameStatus(mode, cur, first, r) == 0
    ensures FrameCalls(mode, cur, first, bodies, particles, r) == FramePlan(mode, cur, first, bodies, particles)
  {
    ArgCallsAllSet(ArgTable(cur), r.arg);
  }

  /** In shared mode a frame that gets through is a legal hand-off: both
      position buffers are acquired, current first, and released in the same
      order, and GL holds everything again afterwards. */
  lemma SharedFrameBalanced(own: Ownership, cur: nat, bodies: nat, particles: nat)
    requires cur < 2
    requires Pos(0) in own && own[Pos(0)] == Draw && Pos(1) in own && own[Pos(1)] == Draw
    ensures var plan := FramePlan(Shared, cur, false, bodies, particles);
            Legal(own, plan) && Replay(own, plan) == own
            && Acquired(plan) == [Pos(cur), Pos(Other(cur))] && Released(plan) == [Pos(cur), Pos(Other(cur))]
  {
    var next := Other(cur);
    var ms := [Pos(cur), Pos(next)];
    var args := ArgEvents(ArgTable(cur));
    var work := args + [Launched(Shared, bodies)];
    var plan := FramePlan(Shared, cur, false, bodies, particles);
    TwoObjects(Pos(cur), Pos(next), []);
    assert plan == [GlFinish] + AcquireAll(ms, []) + work + ReleaseAll(ms, []) + [Finish];
    assert Distinct(ms) && AllDrawn(own, ms);
    ArgCallsQuiet(ArgTable(cur), a => true);
    HoldingSpec(own, ms);
    assert Quiet(Holding(own, ms), work) by {
      assert Quiet(Holding(own, ms), args);
      forall i | 0 <= i < |work|
        ensures Neutral(work[i]) && Allowed(Holding(own, ms), work[i])
      {
        if i < |args| {
          assert work[i] == args[i];
        }
      }
    }
    Bracket(own, [GlFinish], ms, [], work, [Finish]);
    BracketOrder([GlFinish], ms, [], work, [Finish]);
  }

  /** In copy mode the host data is written to the device only by the first
      dispatch: a later frame makes no write at all. */
  lemma {:induction false} CopyWritesOnlyFirst(cur: nat, bodies: nat, particles: nat, r: Replies)
    ensures forall i :: 0 <= i < |FrameCalls(Copy, cur, false, bodies, particles, r)| ==>
              !FrameCalls(Copy, cur, false, bodies, particles, r)[i].Write?
  {
    var calls := FrameCalls(Copy, cur, false, bodies, particles, r);
    var args := ArgCalls(ArgTable(cur), r.arg);
    ArgCallsQuiet(ArgTable(cur), r.arg);
    forall i | 0 <= i < |calls| ensures !calls[i].Write? {
      if 1 <= i < 1 + |args| {
        assert calls[i] == args[i - 1];
      }
    }
  }

  // ---------------------------------------------------------------------
  // The controller

  /** The host array InitData fills with the initial particles. */
  const DataInput := "DataInput"

  /** Cleanup's calls, given the handles it finds: the teardown (clFinish,
      and the kernel, program, queue and context released), the two position
      and two velocity buffers released and DataInput freed. A null handle
      makes its call do nothing. */
  function CleanupCalls(data: Handle, pos: seq<Handle>, vel: seq<Handle>): seq<Event>
    requires |pos| == 2 && |vel| == 2
  {
    [Restart] + ReleaseThrough(pos[0], Free(Pos(0))) + ReleaseThrough(pos[1], Free(Pos(1)))
    + ReleaseThrough(vel[0], Free(Vel(0))) + ReleaseThrough(vel[1], Free(Vel(1)))
    + ReleaseThrough(data, HostFree(DataInput))
  }

  /** One buffer of CreateComputeResource: released when its handle is
      non-null, then made again. */
  function Renewed(h: Handle, m: Mem): seq<Event>
  {
    ReleaseThrough(h, Free(m)) + [Create(m)]
  }

  /** The calls of an Initialize that succeeds, given the handles it finds:
      InitData frees DataInput when non-null and allocates it again,
      SetupComputeKernel sets argument 2 to the body count, and
      CreateComputeResource renews the four buffers. */
  function InitCalls(data: Handle, pos: seq<Handle>, vel: seq<Handle>, bodies: nat): seq<Event>
    requires |pos| == 2 && |vel| == 2
  {
    ReleaseThrough(data, HostFree(DataInput)) + [HostAlloc(DataInput), SetArg(Arg(2, IntArg(bodies), IntBytes))]
    + Renewed(pos[0], Pos(0)) + Renewed(pos[1], Pos(1)) + Renewed(vel[0], Vel(0)) + Renewed(vel[1], Vel(1))
  }

  /** InitCalls after an earlier history, in the order Initialize makes them. */
  lemma InitCallsAfter(t: seq<Event>, data: Handle, pos: seq<Handle>, vel: seq<Handle>, bodies: nat)
    requires |pos| == 2 && |vel| == 2
    ensures t + InitCalls(data, pos, vel, bodies)
            == t + ReleaseThrough(data, HostFree(DataInput)) + [HostAlloc(DataInput), SetArg(Arg(2, IntArg(bodies), IntBytes))]
               + Renewed(pos[0], Pos(0)) + Renewed(pos[1], Pos(1)) + Renewed(vel[0], Vel(0)) + Renewed(vel[1], Vel(1))
  {
  }

  /** Reshape's rebuild: Cleanup, then an Initialize that finds the position
      handles nulled and the velocity handles and DataInput left dangling. */
  function RebuildCalls(data: Handle, pos: seq<Handle>, vel: seq<Handle>, bodies: nat): seq<Event>
    requires |pos| == 2 && |vel| == 2
  {
    CleanupCalls(data, pos, vel) + InitCalls(Dangle(data), [Null, Null], [Dangle(vel[0]), Dangle(vel[1])], bodies)
  }

  /** The rebuild of a built sample, call by call. */
  function BuiltRebuild(bodies: nat): seq<Event>
  {
    [Restart, Free(Pos(0)), Free(Pos(1)), Free(Vel(0)), Free(Vel(1)), HostFree(DataInput),
     HostFree(DataInput), HostAlloc(DataInput), SetArg(Arg(2, IntArg(bodies), IntBytes)),
     Create(Pos(0)), Create(Pos(1)), Free(Vel(0)), Create(Vel(0)), Free(Vel(1)), Create(Vel(1))]
  }

  lemma RebuildOfBuilt(bodies: nat)
    ensures RebuildCalls(Live, [Live, Live], [Live, Live], bodies) == BuiltRebuild(bodies)
  {
  }

  lemma RebuildFreesDataTwice(bodies: nat)
    ensures DoubleFree(BuiltRebuild(bodies), true, HostAlloc(DataInput), HostFree(DataInput))
  {
    var t := BuiltRebuild(bodies);
    var fd := HostFree(DataInput);
    assert t == t[..5] + [fd] + [] + [fd] + t[7..];
    FreedAgain(t[..5], [], t[7..], true, HostAlloc(DataInput), fd);
  }

  /** The buffer names differ, so no position buffer is a velocity buffer. */
  lemma BuffersDistinct(i: nat, j: nat)
    ensures Pos(i) != Vel(j)
  {
    assert Pos(i).name[7] != Vel(j).name[7];
  }

  lemma RebuildReleasesVelocityTwice(bodies: nat, i: nat)
    requires i < 2
    ensures DoubleFree(BuiltRebuild(bodies), true, Create(Vel(i)), Free(Vel(i)))
  {
    var t := BuiltRebuild(bodies);
    var arg := SetArg(Arg(2, IntArg(bodies), IntBytes));
    var fd, ad := HostFree(DataInput), HostAlloc(DataInput);
    BuffersDistinct(0, i);
    BuffersDistinct(1, i);
    var v, n := Free(Vel(i)), Create(Vel(i));
    var w, m := Free(Vel(1 - i)), Create(Vel(1 - i));
    var b := if i == 0 then [w, fd, fd, ad, arg, Create(Pos(0)), Create(Pos(1))]
             else [fd, fd, ad, arg, Create(Pos(0)), Create(Pos(1)), w, m];
    var a := if i == 0 then [Restart, Free(Pos(0)), Free(Pos(1))] else [Restart, Free(Pos(0)), Free(Pos(1)), w];
    var c := if i == 0 then [n, w, m] else [n];
    assert t == a + [v] + b + [v] + c;
    FreedAgain(a, b, c, true, n, v);
  }

  lemma RebuildReleasesPositionOnce(bodies: nat, i: nat)
    requires i < 2
    ensures !DoubleFree(BuiltRebuild(bodies), true, Create(Pos(i)), Free(Pos(i)))
  {
    var t := BuiltRebuild(bodies);
    var arg := SetArg(Arg(2, IntArg(bodies), IntBytes));
    var fd, ad := HostFree(DataInput), HostAlloc(DataInput);
    BuffersDistinct(i, 0);
    BuffersDistinct(i, 1);
    var p, c := Free(Pos(i)), Create(Pos(i));
    var q, d := Free(Pos(1 - i)), Create(Pos(1 - i));
    var v0, v1 := Free(Vel(0)), Free(Vel(1));
    var tail := [v0, Create(Vel(0)), v1, Create(Vel(1))];
    var a := if i == 0 then [Restart] else [Restart, q];
    var b := if i == 0 then [q, v0, v1, fd, fd, ad, arg] else [v0, v1, fd, fd, ad, arg, d];
    var e := if i == 0 then [d] + tail else tail;
    assert t == a + [p] + b + [c] + e;
    FreedThenRemade(a, b, e, c, p);
  }

  /** A rebuild of a built sample (every handle live) frees DataInput a second
      time and releases both velocity buffers a second time, because Cleanup
      leaves those handles set; the position buffers, whose handles Cleanup
      nulls, are released once and made again. */
  lemma RebuildFreesTwice(bodies: nat)
    ensures var t := RebuildCalls(Live, [Live, Live], [Live, Live], bodies);
            DoubleFree(t, true, HostAlloc(DataInput), HostFree(DataInput))
            && DoubleFree(t, true, Create(Vel(0)), Free(Vel(0)))
            && DoubleFree(t, true, Create(Vel(1)), Free(Vel(1)))
            && !DoubleFree(t, true, Create(Pos(0)), Free(Pos(0)))
            && !DoubleFree(t, true, Create(Pos(1)), Free(Pos(1)))
  {
    RebuildOfBuilt(bodies);
    RebuildFreesDataTwice(bodies);
    RebuildReleasesVelocityTwice(bodies, 0);
    RebuildReleasesVelocityTwice(bodies, 1);
    RebuildReleasesPositionOnce(bodies, 0);
    RebuildReleasesPositionOnce(bodies, 1);
  }

  /** What Initialize meets: everything set up, with the kernel's work-group
      limit, or a failure that calls exit(code) -- in SetupGraphics or
      SetupComputeDevices, before InitData (`dataMade` false), or in a later
      step, after it (`dataMade` true). */
  datatype InitReply = Ready(maxWorkGroupSize: nat) | Abort(code: int, dataMade: bool)

  /** Whether Initialize gets as far as InitData. */
  predicate MakesData(reply: InitReply)
  {
    reply.Ready? || reply.dataMade
  }

  /** The process-wide state of the sample. */
  class Controller {
    const mode: Mode
    const pool: ResourcePool
    var animated: bool
    var update: bool
    var windowWidth: nat
    var windowHeight: nat
    var particleCount: nat
    var bodyCount: nat
    var currentBuffer: nat
    var ndRangeCount: nat
    var showInfo: nat
    var showStats: nat
    var maxWorkGroupSize: nat
    var workGroupSize: nat
    /** ComputePosBuffer and ComputeVelBuffer: the handles of the two
        position and the two velocity buffers. */
    const posBuffer: array<Handle>
    const velBuffer: array<Handle>
    /** The handle of the host array DataInput. */
    var dataInput: Handle
    /** ComputeKernel is non-null. */
    var computeReady: bool
    /** The process has gone through exit(). */
    var exited: bool

    /** Every handle holds a live object, as a successful Initialize leaves
        them. */
    ghost predicate Built()
      reads this, posBuffer, velBuffer
    {
      dataInput == Live && posBuffer[..] == [Live, Live] && velBuffer[..] == [Live, Live]
    }

    /** The body count is the particle count, a whole number of groups, and
        the current buffer is 0 or 1; with a kernel, every handle is live. */
    ghost predicate Valid()
      reads this, pool, posBuffer, velBuffer
    {
      pool.Valid() && pool.initial.Keys == SharedObjects(mode)
      && currentBuffer < 2
      && bodyCount == particleCount && bodyCount % GroupSize == 0 && GroupSize <= bodyCount
      && posBuffer.Length == 2 && velBuffer.Length == 2 && posBuffer != velBuffer
      && (computeReady ==> Built())
    }

    /** Running, with every GL-shared object back with GL. */
    ghost predicate Running()
      reads this, pool, posBuffer, velBuffer
    {
      Valid() && !exited && Settled(pool.owner)
    }

    /** The static initial values, before main runs. */
    constructor (mode: Mode)
      ensures Running() && this.mode == mode && fresh(pool) && pool.trace == []
      ensures !animated && update && windowWidth == InitialWindow && windowHeight == InitialWindow
      ensures particleCount == InitialCount && bodyCount == InitialCount
      ensures currentBuffer == 0 && ndRangeCount == 0 && showInfo == 1 && showStats == 1 && !computeReady
      ensures dataInput == Null && posBuffer[..] == [Null, Null] && velBuffer[..] == [Null, Null]
    {
      this.mode := mode;
      pool := new ResourcePool(SharedObjects(mode));
      animated, update := false, true;
      windowWidth, windowHeight := InitialWindow, InitialWindow;
      particleCount, bodyCount := InitialCount, InitialCount;
      currentBuffer, ndRangeCount := 0, 0;
      showInfo, showStats := 1, 1;
      maxWorkGroupSize, workGroupSize := 0, 0;
      posBuffer := new Handle[] [Null, Null];
      velBuffer := new Handle[] [Null, Null];
      dataInput := Null;
      computeReady := false;
      exited := false;
    }

    /** Initialize: InitData rounds the particle count and remakes DataInput,
        then the kernel is set up (the work-group size from its limit, the
        body count as argument 2) and CreateComputeResource remakes the four
        buffers; every failure ends the process with exit(code). */
    method Initialize(reply: InitReply) returns (out: Outcome)
      requires Running()
      modifies this`particleCount, this`bodyCount, this`maxWorkGroupSize, this`workGroupSize,
               this`dataInput, this`computeReady, this`exited, posBuffer, velBuffer, pool
      ensures Running() || exited
      ensures MakesData(reply) ==> particleCount == RoundCount(old(particleCount)) && bodyCount == particleCount
      ensures !MakesData(reply) ==>
                particleCount == old(particleCount) && bodyCount == old(bodyCount) && dataInput == old(dataInput)
                && pool.trace == old(pool.trace)
      ensures reply.Ready? ==>
                out == Continue && Running() && computeReady && Built()
                && maxWorkGroupSize == reply.maxWorkGroupSize && workGroupSize == WorkGroupFor(reply.maxWorkGroupSize)
                && pool.trace == old(pool.trace) + InitCalls(old(dataInput), old(posBuffer[..]), old(velBuffer[..]), bodyCount)
      ensures reply.Abort? ==> out == Exit(reply.code) && exited
    {
      if reply.Abort? && !reply.dataMade {
        exited := true;
        return Exit(reply.code);
      }
      ghost var t0 := pool.trace;
      ghost var data := dataInput;
      InitData();
      match reply
      case Abort(code, _) =>
        exited := true;
        return Exit(code);
      case Ready(limit) =>
        maxWorkGroupSize := limit;
        workGroupSize := WorkGroupFor(limit);
        pool.Emit(SetArg(Arg(2, IntArg(bodyCount), IntBytes)));
        ghost var t1 := pool.trace;
        ghost var pos, vel := posBuffer[..], velBuffer[..];
        assert t1 == t0 + ReleaseThrough(data, HostFree(DataInput))
                    + [HostAlloc(DataInput), SetArg(Arg(2, IntArg(bodyCount), IntBytes))];
        CreateComputeResource();
        InitCallsAfter(t0, data, pos, vel, bodyCount);
        computeReady := true;
        return Continue;
    }

    /** InitData: the particle count rounded to whole groups, and DataInput
        freed when non-null and allocated again. */
    method InitData()
      requires Running()
      modifies this`particleCount, this`bodyCount, this`dataInput, pool
      ensures Running() && pool.owner == old(pool.owner)
      ensures particleCount == RoundCount(old(particleCount)) && bodyCount == particleCount
      ensures dataInput == Live
      ensures pool.trace == old(pool.trace) + ReleaseThrough(old(dataInput), HostFree(DataInput)) + [HostAlloc(DataInput)]
    {
      particleCount := RoundCount(particleCount);
      bodyCount := particleCount;
      pool.EmitThrough(dataInput, HostFree(DataInput));
      pool.Emit(HostAlloc(DataInput));
      dataInput := Live;
    }

    /** CreateComputeResource: the two position and the two velocity buffers
        made again, each after its old one is released. */
    method CreateComputeResource()
      requires Running()
      modifies posBuffer, velBuffer, pool
      ensures Running() && pool.owner == old(pool.owner)
      ensures posBuffer[..] == [Live, Live] && velBuffer[..] == [Live, Live]
      ensures pool.trace == old(pool.trace) + Renewed(old(posBuffer[0]), Pos(0)) + Renewed(old(posBuffer[1]), Pos(1))
                            + Renewed(old(velBuffer[0]), Vel(0)) + Renewed(old(velBuffer[1]), Vel(1))
    {
      Renew(posBuffer, 0, Pos(0));
      Renew(posBuffer, 1, Pos(1));
      Renew(velBuffer, 0, Vel(0));
      Renew(velBuffer, 1, Vel(1));
    }

    /** One buffer of CreateComputeResource: `if (h) clReleaseMemObject(h);
        h = 0;`, then the buffer made again into slot i. */
    method Renew(a: array<Handle>, i: nat, m: Mem)
      requires pool.Valid() && i < a.Length
      modifies a, pool
      ensures pool.Valid() && pool.owner == old(pool.owner)
      ensures pool.trace == old(pool.trace) + Renewed(old(a[i]), m)
      ensures a[..] == old(a[..])[i := Live]
    {
      pool.EmitThrough(a[i], Free(m));
      pool.Emit(Create(m));
      a[i] := Live;
    }

    /** main up to the event loop: the device switches, then Initialize,
        which either succeeds or does not return. */
    method Start(argv: seq<string>, reply: InitReply) returns (out: Outcome, useGpu: int)
      requires Running() && !computeReady
      modifies this`particleCount, this`bodyCount, this`maxWorkGroupSize, this`workGroupSize,
               this`dataInput, this`computeReady, this`exited, posBuffer, velBuffer, pool
      ensures useGpu == DeviceAfter(Kinds(argv, DeviceNames))
      ensures MakesData(reply) ==> particleCount == RoundCount(old(particleCount)) && bodyCount == particleCount
      ensures !MakesData(reply) ==>
                particleCount == old(particleCount) && bodyCount == old(bodyCount) && pool.trace == old(pool.trace)
      ensures reply.Ready? ==>
                out == Continue && Running() && computeReady && Built()
                && maxWorkGroupSize == reply.maxWorkGroupSize && workGroupSize == WorkGroupFor(reply.maxWorkGroupSize)
                && pool.trace == old(pool.trace) + InitCalls(old(dataInput), old(posBuffer[..]), old(velBuffer[..]), bodyCount)
      ensures reply.Abort? ==> out == Exit(reply.code) && exited
    {
      useGpu := ParseDevice(argv);
      out := Initialize(reply);
    }

    /** Recompute: without a kernel nothing happens; a gated frame (Animated
        or Update) hands the position buffers over, sets the arguments
        (clearing Update), dispatches, counts the dispatch and hands the
        buffers back; then the shader is told the new index and the buffers
        swap. */
    method Recompute(r: Replies) returns (err: int)
      requires Running()
      modifies this`update, this`ndRangeCount, this`currentBuffer, pool
      ensures Valid()
      ensures err == RecomputeStatus(computeReady, animated || old(update), mode, old(currentBuffer),
                                     old(ndRangeCount) == 0, r)
      ensures pool.trace == old(pool.trace) + RecomputeCalls(computeReady, animated || old(update), mode,
                                                             old(currentBuffer), old(ndRangeCount) == 0,
                                                             bodyCount, particleCount, r)
      ensures err == 0 ==> Settled(pool.owner)
      ensures currentBuffer == if computeReady && err == 0 then Other(old(currentBuffer)) else old(currentBuffer)
      ensures ndRangeCount == old(ndRangeCount)
                              + (if computeReady && (animated || old(update)) && FetchOk(mode, old(ndRangeCount) == 0, r)
                                    && LaunchStatus(old(currentBuffer), r) == 0 then 1 else 0)
      ensures update == (old(update) && !(computeReady && FetchOk(mode, old(ndRangeCount) == 0, r)))
    {
      if !computeReady {
        return 0;
      }
      var next := Other(currentBuffer);
      ghost var t0 := pool.trace;
      if animated || update {
        err := Frame(r);
        if err != 0 {
          return err;
        }
        AppendAssoc(t0, FrameCalls(mode, currentBuffer, old(ndRangeCount) == 0, bodyCount, particleCount, r),
                    [Uniform(next)]);
      }
      pool.Emit(Uniform(next));
      currentBuffer := next;
      err := 0;
    }

    /** The gated part of Recompute. */
    method Frame(r: Replies) returns (err: int)
      requires Running() && computeReady
      modifies this`update, this`ndRangeCount, pool
      ensures Valid()
      ensures err == FrameStatus(mode, currentBuffer, old(ndRangeCount) == 0, r)
      ensures pool.trace == old(pool.trace) + FrameCalls(mode, currentBuffer, old(ndRangeCount) == 0, bodyCount,
                                                         particleCount, r)
      ensures err == 0 ==> Settled(pool.owner)
      ensures ndRangeCount == old(ndRangeCount)
                              + (if FetchOk(mode, old(ndRangeCount) == 0, r) && LaunchStatus(currentBuffer, r) == 0
                                 then 1 else 0)
      ensures update == (old(update) && !FetchOk(mode, old(ndRangeCount) == 0, r))
    {
      ghost var t0 := pool.trace;
      var first := ndRangeCount == 0;
      pool.Emit(GlFinish);
      ghost var fetch := FetchCalls(mode, currentBuffer, first, bodyCount, r);
      var ok := TakeBuffers(r, first);
      AppendAssoc(t0, [GlFinish], fetch);
      if !ok {
        return 1;
      }
      update := false;
      ghost var launch := LaunchCalls(mode, currentBuffer, bodyCount, r);
      err := Launch(r);
      AppendAssoc(t0, [GlFinish] + fetch, launch);
      if err != 0 {
        return err;
      }
      ghost var hand := HandCalls(mode, currentBuffer, FetchCount(mode, first), particleCount, r);
      ok := GiveBuffers(r, FetchCount(mode, first));
      AppendAssoc(t0, [GlFinish] + fetch + launch, hand);
      if !ok {
        return 1;
      }
      pool.Emit(Finish);
      AppendAssoc(t0, [GlFinish] + fetch + launch + hand, [Finish]);
    }

    /** The hand-over before the kernel: acquire the current then the next
        position buffer (shared mode), or on the first dispatch write the host
        data into both (copy mode). */
    method TakeBuffers(r: Replies, first: bool) returns (ok: bool)
      requires Valid() && Settled(pool.owner)
      modifies pool
      ensures Valid()
      ensures ok == FetchOk(mode, first, r)
      ensures pool.trace == old(pool.trace) + FetchCalls(mode, currentBuffer, first, bodyCount, r)
      ensures ok && mode == Shared ==>
                Pos(0) in pool.owner && pool.owner[Pos(0)] == Compute
                && Pos(1) in pool.owner && pool.owner[Pos(1)] == Compute
      ensures mode == Copy ==> pool.owner == old(pool.owner)
    {
      var next := Other(currentBuffer);
      if mode == Copy && !first {
        return true;
      }
      ok := r.transfer(0);
      if !ok {
        return;
      }
      if mode == Shared {
        pool.Emit(Acquire(Pos(currentBuffer)));
      } else {
        pool.Emit(Write(Pos(currentBuffer), PosBytes(bodyCount)));
      }
      ok := r.transfer(1);
      if !ok {
        return;
      }
      if mode == Shared {
        pool.Emit(Acquire(Pos(next)));
      } else {
        pool.Emit(Write(Pos(next), PosBytes(bodyCount)));
      }
    }

    /** The launch: the four arguments, the enqueue, and the count of
        dispatches. */
    method Launch(r: Replies) returns (err: int)
      requires Valid()
      requires mode == Shared ==>
                 Pos(0) in pool.owner && pool.owner[Pos(0)] == Compute
                 && Pos(1) in pool.owner && pool.owner[Pos(1)] == Compute
      modifies this`ndRangeCount, pool
      ensures Valid() && pool.owner == old(pool.owner)
      ensures err == LaunchStatus(currentBuffer, r)
      ensures pool.trace == old(pool.trace) + LaunchCalls(mode, currentBuffer, bodyCount, r)
      ensures ndRangeCount == old(ndRangeCount) + (if err == 0 then 1 else 0)
    {
      var failed := SetArgs(pool, ArgTable(currentBuffer), r.arg);
      if failed {
        return -10;
      }
      if r.enqueue != 0 {
        return r.enqueue;
      }
      pool.Emit(Launched(mode, bodyCount));
      ndRangeCount := ndRangeCount + 1;
      return 0;
    }

    /** The hand-back after the kernel, from transfer `base`: release the
        current then the next position buffer (shared mode), or read the next
        one back and upload it to its vertex buffer (copy mode). */
    method GiveBuffers(r: Replies, base: nat) returns (ok: bool)
      requires Valid()
      requires mode == Shared ==>
                 Pos(0) in pool.owner && pool.owner[Pos(0)] == Compute
                 && Pos(1) in pool.owner && pool.owner[Pos(1)] == Compute
      requires mode == Copy ==> Settled(pool.owner)
      modifies pool
      ensures Valid()
      ensures ok == HandOk(mode, base, r)
      ensures pool.trace == old(pool.trace) + HandCalls(mode, currentBuffer, base, particleCount, r)
      ensures ok ==> Settled(pool.owner)
    {
      var next := Other(currentBuffer);
      ok := r.transfer(base);
      if !ok {
        return;
      }
      if mode == Shared {
        pool.Emit(Release(Pos(currentBuffer)));
        ok := r.transfer(base + 1);
        if !ok {
          return;
        }
        pool.Emit(Release(Pos(next)));
      } else {
        pool.Emit(Read(Pos(next), ReadBackBytes(particleCount)));
        pool.Emit(DrawTouch(Vbo(next)));
      }
    }

    /** Display_: Recompute only when Animated or Update (a failure ends the
        process with exit(1)), then both position sets drawn and the info
        banner counted down. */
    method Display(r: Replies) returns (out: Outcome)
      requires Running()
      modifies this`update, this`ndRangeCount, this`currentBuffer, this`showInfo, this`exited, pool
      ensures Running() || exited
      ensures out == Continue || out == Exit(1)
      ensures out == Continue <==>
                RecomputeStatus(computeReady, animated || old(update), mode, old(currentBuffer),
                                old(ndRangeCount) == 0, r) == 0
      ensures currentBuffer == if (animated || old(update)) && computeReady && out == Continue
                               then Other(old(currentBuffer)) else old(currentBuffer)
      ensures ndRangeCount == old(ndRangeCount)
                              + (if computeReady && (animated || old(update)) && FetchOk(mode, old(ndRangeCount) == 0, r)
                                    && LaunchStatus(old(currentBuffer), r) == 0 then 1 else 0)
      ensures update == (old(update) && !(computeReady && FetchOk(mode, old(ndRangeCount) == 0, r)))
      ensures out == Continue ==>
                Running() && showInfo == NextInfo(old(showInfo))
                && pool.trace == old(pool.trace)
                                 + (if animated || old(update)
                                    then RecomputeCalls(computeReady, true, mode, old(currentBuffer),
                                                        old(ndRangeCount) == 0, bodyCount, particleCount, r)
                                    else [])
                                 + [DrawTouch(Drawn(mode, 0)), DrawTouch(Drawn(mode, 1))]
      ensures out == Exit(1) ==> exited
    {
      if animated || update {
        var err := Recompute(r);
        if err != 0 {
          exited := true;
          return Exit(1);
        }
      }
      Paint();
      return Continue;
    }

    /** The drawing half of Display_: glDrawArrays over both position sets,
        then ReportInfo. */
    method Paint()
      requires Running()
      modifies this`showInfo, pool
      ensures Running() && showInfo == NextInfo(old(showInfo))
      ensures pool.trace == old(pool.trace) + [DrawTouch(Drawn(mode, 0)), DrawTouch(Drawn(mode, 1))]
    {
      pool.Emit(DrawTouch(Drawn(mode, 0)));
      pool.Emit(DrawTouch(Drawn(mode, 1)));
      ReportInfo();
    }

    /** ReportInfo: while the info banner is up, count the frames it has
        been up. */
    method ReportInfo()
      modifies this`showInfo
      ensures showInfo == NextInfo(old(showInfo))
    {
      if showInfo != 0 {
        showInfo := if showInfo > 200 then 0 else showInfo + 1;
      }
    }

    /** Keyboard: Escape exits; space toggles the animation and raises the
        banner; 'i' and 's' toggle the banners. Every other key asks for a
        new frame. */
    method Keyboard(key: char) returns (out: Outcome)
      requires Running()
      modifies this`animated, this`showInfo, this`showStats, this`update, this`exited
      ensures out == Exit(0) <==> key == Escape
      ensures key == Escape ==> exited
      ensures key != Escape ==> out == Continue && Running() && update
      ensures key == ' ' ==> animated == !old(animated) && showInfo == 1
      ensures key != ' ' ==> animated == old(animated)
      ensures key == 'i' ==> showInfo == Toggle(old(showInfo))
      ensures key == 's' ==> showStats == Toggle(old(showStats))
      ensures key !in {' ', 'i'} ==> showInfo == old(showInfo)
      ensures key != 's' ==> showStats == old(showStats)
    {
      if key == Escape {
        exited := true;
        return Exit(0);
      } else if key == ' ' {
        animated := !animated;
        showInfo := 1;
      } else if key == 'i' {
        showInfo := Toggle(showInfo);
      } else if key == 's' {
        showStats := Toggle(showStats);
      }
      update := true;
      return Continue;
    }

    /** Reshape: a window that outgrows twice the current size tears the
        compute side down and builds it again (Initialize either succeeds or
        ends the process, so the Shutdown branch is never taken); the new size
        is kept in every case. */
    method Reshape(w: nat, h: nat, reply: InitReply) returns (out: Outcome)
      requires Running()
      modifies this`windowWidth, this`windowHeight, this`particleCount, this`bodyCount,
               this`maxWorkGroupSize, this`workGroupSize, this`dataInput, this`computeReady, this`exited,
               posBuffer, velBuffer, pool
      ensures Running() || exited
      ensures windowWidth == w && windowHeight == h
      ensures !Outgrows(w, h, old(windowWidth), old(windowHeight)) ==>
                out == Continue && Running() && pool.trace == old(pool.trace)
                && computeReady == old(computeReady) && bodyCount == old(bodyCount)
                && particleCount == old(particleCount) && maxWorkGroupSize == old(maxWorkGroupSize)
                && workGroupSize == old(workGroupSize) && dataInput == old(dataInput)
                && posBuffer[..] == old(posBuffer[..]) && velBuffer[..] == old(velBuffer[..])
      ensures Outgrows(w, h, old(windowWidth), old(windowHeight)) ==>
                bodyCount == (if MakesData(reply) then RoundCount(old(particleCount)) else old(bodyCount))
                && match reply
                   case Ready(limit) =>
                     out == Continue && Running() && computeReady
                     && maxWorkGroupSize == limit && workGroupSize == WorkGroupFor(limit)
                     && pool.trace == old(pool.trace)
                                      + RebuildCalls(old(dataInput), old(posBuffer[..]), old(velBuffer[..]), bodyCount)
                   case Abort(code, _) => out == Exit(code) && exited
      ensures Outgrows(w, h, old(windowWidth), old(windowHeight)) && reply.Ready? && old(computeReady) ==>
                var t := pool.trace[|old(pool.trace)|..];
                DoubleFree(t, true, HostAlloc(DataInput), HostFree(DataInput))
                && DoubleFree(t, true, Create(Vel(0)), Free(Vel(0)))
                && DoubleFree(t, true, Create(Vel(1)), Free(Vel(1)))
    {
      out := Continue;
      if Outgrows(w, h, windowWidth, windowHeight) {
        windowWidth, windowHeight := w, h;
        out := Rebuild(reply);
      }
      windowWidth, windowHeight := w, h;
    }

    /** The rebuild in Reshape: Cleanup, then Initialize. Rebuilding a built
        sample frees DataInput and releases both velocity buffers a second
        time. */
    method Rebuild(reply: InitReply) returns (out: Outcome)
      requires Running()
      modifies this`particleCount, this`bodyCount, this`maxWorkGroupSize, this`workGroupSize,
               this`dataInput, this`computeReady, this`exited, posBuffer, velBuffer, pool
      ensures Running() || exited
      ensures bodyCount == if MakesData(reply) then RoundCount(old(particleCount)) else old(bodyCount)
      ensures reply.Ready? ==>
                out == Continue && Running() && computeReady
                && maxWorkGroupSize == reply.maxWorkGroupSize && workGroupSize == WorkGroupFor(reply.maxWorkGroupSize)
                && pool.trace == old(pool.trace) + RebuildCalls(old(dataInput), old(posBuffer[..]), old(velBuffer[..]), bodyCount)
      ensures reply.Abort? ==> out == Exit(reply.code) && exited
      ensures reply.Ready? && old(computeReady) ==>
                var t := pool.trace[|old(pool.trace)|..];
                DoubleFree(t, true, HostAlloc(DataInput), HostFree(DataInput))
                && DoubleFree(t, true, Create(Vel(0)), Free(Vel(0)))
                && DoubleFree(t, true, Create(Vel(1)), Free(Vel(1)))
    {
      ghost var t0 := pool.trace;
      ghost var data, pos, vel := dataInput, posBuffer[..], velBuffer[..];
      ghost var built := computeReady;
      Cleanup();
      ghost var t1 := pool.trace;
      out := Initialize(reply);
      if reply.Ready? {
        AppendAssoc(t0, CleanupCalls(data, pos, vel), pool.trace[|t1|..]);
        assert pool.trace == t0 + RebuildCalls(data, pos, vel, bodyCount);
        if built {
          RebuildFreesTwice(bodyCount);
        }
      }
    }

    /** Cleanup: the teardown, the four buffers released and DataInput freed.
        The queue, kernel, program, context and position handles are nulled;
        the velocity handles and DataInput are left holding what was released
        or freed. */
    method Cleanup()
      requires Running()
      modifies this`dataInput, this`computeReady, posBuffer, velBuffer, pool
      ensures Running() && !computeReady
      ensures pool.trace == old(pool.trace) + CleanupCalls(old(dataInput), old(posBuffer[..]), old(velBuffer[..]))
      ensures posBuffer[..] == [Null, Null] && velBuffer[..] == [Dangle(old(velBuffer[0])), Dangle(old(velBuffer[1]))]
      ensures dataInput == Dangle(old(dataInput))
    {
      ReleaseAll();
      posBuffer[0] := Null;
      posBuffer[1] := Null;
      velBuffer[0] := Dangle(velBuffer[0]);
      velBuffer[1] := Dangle(velBuffer[1]);
      dataInput := Dangle(dataInput);
      computeReady := false;
    }

    /** The calls of Cleanup, which change no handle. */
    method ReleaseAll()
      requires pool.Valid() && posBuffer.Length == 2 && velBuffer.Length == 2
      modifies pool
      ensures pool.Valid() && pool.owner == old(pool.owner)
      ensures pool.trace == old(pool.trace) + CleanupCalls(dataInput, posBuffer[..], velBuffer[..])
    {
      ghost var t0 := pool.trace;
      pool.Emit(Restart);
      ghost var done := [Restart];
      pool.EmitThrough(posBuffer[0], Free(Pos(0)));
      done := done + ReleaseThrough(posBuffer[0], Free(Pos(0)));
      AppendAssoc(t0, [Restart], ReleaseThrough(posBuffer[0], Free(Pos(0))));
      pool.EmitThrough(posBuffer[1], Free(Pos(1)));
      AppendAssoc(t0, done, ReleaseThrough(posBuffer[1], Free(Pos(1))));
      done := done + ReleaseThrough(posBuffer[1], Free(Pos(1)));
      pool.EmitThrough(velBuffer[0], Free(Vel(0)));
      AppendAssoc(t0, done, ReleaseThrough(velBuffer[0], Free(Vel(0))));
      done := done + ReleaseThrough(velBuffer[0], Free(Vel(0)));
      pool.EmitThrough(velBuffer[1], Free(Vel(1)));
      AppendAssoc(t0, done, ReleaseThrough(velBuffer[1], Free(Vel(1))));
      done := done + ReleaseThrough(velBuffer[1], Free(Vel(1)));
      pool.EmitThrough(dataInput, HostFree(DataInput));
      AppendAssoc(t0, done, ReleaseThrough(dataInput, HostFree(DataInput)));
      done := done + ReleaseThrough(dataInput, HostFree(DataInput));
      assert done == CleanupCalls(dataInput, posBuffer[..], velBuffer[..]);
    }
  }
}
