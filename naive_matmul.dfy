/** The naive MatMul sample of trunk/src/naive/MatMul: a frame controller
    that multiplies two 512 x 512 matrices on every frame and shows the
    product as a texture, read back through host memory (copy mode) or copied
    into a GL-shared image (shared mode). */
module NaiveMatMul {
  import opened Interop
  import opened Glut
  import opened CommandLine
  import opened MatMulSizing

  /** The matrix shapes, fixed at their initial values. */
  const Width0 := 512
  const Height0 := 512
  const Width1 := 512
  const Height1 := 512
  /** The initial window and texture size (WIDTH, HEIGHT). */
  const InitialWindow := 512
  /** BlockSize: each work-group is BlockSize x BlockSize items. */
  const BlockSize := 8
  /** WorkGroupItems, the divisor of the work-group split. */
  const WorkGroupItems := 32
  /** CL_IMAGE_FORMAT_NOT_SUPPORTED, Initialize's result without image support. */
  const ImageFormatNotSupported := -10

  const MatrixA := Mem("ComputeMatrixA", 0)
  const MatrixB := Mem("ComputeMatrixB", 0)
  const MatrixC := Mem("ComputeMatrixC", 0)
  /** The texture the product is shown in; a CL image over it in shared mode. */
  const Image := Mem("ComputeImage", 0)

  /** Only the texture is shared with GL, and only in shared mode. */
  function SharedObjects(mode: Mode): set<Mem>
  {
    if mode == Shared then {Image} else {}
  }

  // ---------------------------------------------------------------------
  // Sizes

  /** Bytes of one input matrix: Width0 * Height0 floats. */
  const MatrixBytes := Width0 * Height0 * FloatBytes

  /** The local memory reserved for argument 4 of the local-memory kernel:
      (BlockSize * 4)^2 floats. */
  const LocalBytes := (BlockSize * 4) * (BlockSize * 4) * FloatBytes

  /** Bytes of ComputeMatrixC, made when the compute side is set up: four
      bytes per texel of the texture. */
  function ResultBytes(textureWidth: nat, textureHeight: nat): nat
  {
    4 * textureWidth * textureHeight
  }

  /** Bytes of the copy-mode read-back: four per pixel of the window. */
  function ReadBackBytes(width: nat, height: nat): nat
  {
    width * height * 4
  }

  /** The read-back is sized by the window while the result buffer is sized
      by the texture, and a resize within twice the old size keeps the
      texture: a 600 x 600 window after the initial 512 x 512 one reads more
      bytes than ComputeMatrixC holds. */
  lemma ReadBackOverrun()
    ensures !Outgrows(600, 600, InitialWindow, InitialWindow)
    ensures ReadBackBytes(600, 600) > ResultBytes(InitialWindow, InitialWindow)
  {
  }

  /** The read-back fits the result buffer exactly when the window has no
      more pixels than the texture. */
  lemma ReadBackFits(width: nat, height: nat, textureWidth: nat, textureHeight: nat)
    ensures ReadBackBytes(width, height) <= ResultBytes(textureWidth, textureHeight)
            <==> width * height <= textureWidth * textureHeight
  {
    assert ReadBackBytes(width, height) == 4 * (width * height);
    assert ResultBytes(textureWidth, textureHeight) == 4 * (textureWidth * textureHeight);
  }

  // ---------------------------------------------------------------------
  // SetupComputeKernel: the work-group split

  /** WorkGroupSize[0] before the division: the kernel limit over
      WorkGroupItems when the limit is above 1, the limit itself otherwise
      (a `size_t`). */
  function SplitQuotient(maxWorkGroupSize: nat): nat
  {
    if maxWorkGroupSize > 1 then maxWorkGroupSize / WorkGroupItems else maxWorkGroupSize
  }

  /** The split stored in the `int` pair WorkGroupSize: the quotient, and the
      limit divided by it (in `size_t`, the `int` read back as unsigned).
      None when that division is by zero and the process dies. */
  function Split(maxWorkGroupSize: nat): Option<(int, int)>
    requires maxWorkGroupSize < U64
  {
    var w0 := AsI32(SplitQuotient(maxWorkGroupSize) % U32);
    var divisor := w0 % U64;
    if divisor == 0 then None
    else Some((w0, AsI32(maxWorkGroupSize / divisor % U32)))
  }

  /** The split divides by zero exactly for a limit of 0 or one strictly
      between 1 and WorkGroupItems (for limits below 32 * 2^32, past which
      the quotient can wrap to 0 as well). */
  lemma SplitDividesByZero(maxWorkGroupSize: nat)
    requires maxWorkGroupSize < WorkGroupItems * U32
    ensures Split(maxWorkGroupSize).None? <==> maxWorkGroupSize == 0 || 1 < maxWorkGroupSize < WorkGroupItems
  {
    var q := SplitQuotient(maxWorkGroupSize);
    assert q < U32;
    assert AsI32(q) % U64 == 0 <==> q == 0;
  }

  /** A limit of 1 gives a 1 x 1 group; a limit of at least WorkGroupItems
      gives limit / 32 x (32 to 63) items, which never exceeds the limit. */
  lemma SplitWithinLimit(maxWorkGroupSize: nat)
    requires maxWorkGroupSize == 1 || WorkGroupItems <= maxWorkGroupSize < WorkGroupItems * I32
    ensures Split(maxWorkGroupSize).Some?
    ensures var ws := Split(maxWorkGroupSize).value;
            ws.0 == SplitQuotient(maxWorkGroupSize) > 0 && ws.1 == maxWorkGroupSize / ws.0
            && ws.0 * ws.1 <= maxWorkGroupSize
            && (maxWorkGroupSize == 1 ==> ws == (1, 1))
            && (maxWorkGroupSize > 1 ==> WorkGroupItems <= ws.1 < 2 * WorkGroupItems)
  {
    var q := SplitQuotient(maxWorkGroupSize);
    if maxWorkGroupSize > 1 {
      SplitRange(maxWorkGroupSize, q);
    }
    SplitUnwrapped(maxWorkGroupSize, q);
  }

  /** Neither cast of the split changes anything when the quotient `q` is a
      positive `int` and the second half is below 2^31. */
  lemma SplitUnwrapped(m: nat, q: nat)
    requires m < U64 && q == SplitQuotient(m) && 0 < q < I32 && m / q < I32
    ensures Split(m) == Some((q, m / q))
  {
    var r := m / q;
    assert q % U32 == q && AsI32(q) == q && q % U64 == q;
    assert r % U32 == r && AsI32(r) == r;
  }

  /** The second half of the split: a limit with quotient q by 32 holds q
      between 32 and 63 times. */
  lemma SplitRange(m: nat, q: nat)
    requires 1 <= q && WorkGroupItems * q <= m < WorkGroupItems * q + WorkGroupItems
    ensures WorkGroupItems <= m / q < 2 * WorkGroupItems && q * (m / q) <= m
  {
    var r := m / q;
    assert m == r * q + m % q;
    if r < WorkGroupItems {
      MulLe(r + 1, WorkGroupItems, q);
    }
    if r >= 2 * WorkGroupItems {
      MulLe(2 * WorkGroupItems, r, q);
    }
  }

  lemma MulLe(a: nat, b: nat, c: nat)
    requires a <= b
    ensures a * c <= b * c
  {
  }

  // ---------------------------------------------------------------------
  // Recompute

  /** The kernel arguments, as Recompute lists them in values[] and sizes[]:
      the three matrices, Width0, and then either a NULL pointer reserving
      LocalBytes of local memory (Lds) or Width1. */
  function ArgTable(lds: bool): (t: seq<Arg>)
    ensures |t| == 5 && forall i :: 0 <= i < 5 ==> t[i].index == i
    ensures t[4].value.NullArg? <==> lds
  {
    [Arg(0, MemArg(MatrixA), HandleBytes),
     Arg(1, MemArg(MatrixB), HandleBytes),
     Arg(2, MemArg(MatrixC), HandleBytes),
     Arg(3, IntArg(Width0), IntBytes),
     if lds then Arg(4, NullArg, LocalBytes) else Arg(4, IntArg(Width1), IntBytes)]
  }

  /** The upload of a gated frame: both input matrices written, then
      clFlush. Neither write is checked. */
  function Upload(): seq<Event>
  {
    [Write(MatrixA, MatrixBytes), Write(MatrixB, MatrixBytes), Flush]
  }

  /** The dispatch: {Width1/4, Height0/4} items in BlockSize x BlockSize
      groups, over no GL-shared object. */
  function Launched(): (e: Event)
    ensures e.Dispatch? && |e.global| == 2 && |e.local| == 2
    ensures e.local[0] > 0 && e.local[1] > 0
    ensures e.global[0] % e.local[0] == 0 && e.global[1] % e.local[1] == 0
  {
    Dispatch([Width1 / 4, Height0 / 4], [BlockSize, BlockSize], {})
  }

  /** The status of the launch: -10 when an argument call of a gated frame
      fails, else the enqueue status. */
  function LaunchStatus(gated: bool, lds: bool, r: Replies): (err: int)
    ensures err == 0 <==> (!gated || AllSet(ArgTable(lds), r.arg)) && r.enqueue == 0
    ensures err != 0 ==> err == -10 || err == r.enqueue
  {
    if gated && !AllSet(ArgTable(lds), r.arg) then -10 else r.enqueue
  }

  /** The calls of the launch: a gated frame's upload and argument calls
      (every one is made, the failures OR-ed together), then the dispatch
      if the launch succeeds. */
  function LaunchCalls(gated: bool, lds: bool, r: Replies): seq<Event>
  {
    (if gated then Upload() + ArgCalls(ArgTable(lds), r.arg) else [])
    + (if LaunchStatus(gated, lds, r) == 0 then [Launched()] else [])
  }

  /** The hand-over after the dispatch, when every call of it succeeds: in
      shared mode the image is acquired, the product copied into it and the
      image released; in copy mode the product is read back into host
      memory. */
  function HandPlan(mode: Mode, width: nat, height: nat): seq<Event>
  {
    if mode == Shared then [Acquire(Image), CopyToImage(MatrixC, Image), Release(Image)]
    else [Read(MatrixC, ReadBackBytes(width, height))]
  }

  /** Do the calls of the hand-over (numbered from 0) all succeed? */
  predicate HandOk(mode: Mode, r: Replies)
  {
    if mode == Shared then All3(r.transfer, 0) else r.transfer(0)
  }

  /** The calls of the hand-over that are made, up to the first failure. */
  function HandCalls(mode: Mode, width: nat, height: nat, r: Replies): seq<Event>
  {
    if mode == Shared then Steps3(Acquire(Image), CopyToImage(MatrixC, Image), Release(Image), r.transfer, 0)
    else if r.transfer(0) then [Read(MatrixC, ReadBackBytes(width, height))] else []
  }

  /** Does every checked call of a Recompute with a live kernel succeed? */
  predicate Succeeds(mode: Mode, gated: bool, lds: bool, r: Replies)
  {
    (!gated || AllSet(ArgTable(lds), r.arg)) && r.enqueue == 0 && HandOk(mode, r)
  }

  /** The status Recompute returns when the kernel exists: the launch's
      status, else EXIT_FAILURE (1) for a failed hand-over. */
  function RecomputeStatus(mode: Mode, gated: bool, lds: bool, r: Replies): (err: int)
    ensures err == 0 <==> Succeeds(mode, gated, lds, r)
    ensures err != 0 ==> err == 1 || err == -10 || err == r.enqueue
  {
    if LaunchStatus(gated, lds, r) != 0 then LaunchStatus(gated, lds, r)
    else if !HandOk(mode, r) then 1
    else 0
  }

  /** The calls of a Recompute with a live kernel, up to the first failure. */
  function RecomputeCalls(mode: Mode, gated: bool, lds: bool, width: nat, height: nat, r: Replies): seq<Event>
  {
    LaunchCalls(gated, lds, r) + (if LaunchStatus(gated, lds, r) == 0 then HandCalls(mode, width, height, r) else [])
  }

  /** The calls of a Recompute that gets through: upload and arguments when
      the frame is gated, the dispatch in every frame, then the hand-over. */
  function RecomputePlan(mode: Mode, gated: bool, lds: bool, width: nat, height: nat): seq<Event>
  {
    (if gated then Upload() + ArgEvents(ArgTable(lds)) else []) + [Launched()] + HandPlan(mode, width, height)
  }

  /** When every call succeeds, the calls made are the plan. */
  lemma CallsFollowPlan(mode: Mode, gated: bool, lds: bool, width: nat, height: nat, r: Replies)
    requires Succeeds(mode, gated, lds, r)
    ensures RecomputeCalls(mode, gated, lds, width, height, r) == RecomputePlan(mode, gated, lds, width, height)
  {
    if gated {
      ArgCallsAllSet(ArgTable(lds), r.arg);
    }
  }

  /** A frame that is neither animated nor asked to update still dispatches
      the kernel, with no upload and no argument call before it. */
  lemma UngatedFrameDispatches(mode: Mode, lds: bool, width: nat, height: nat, r: Replies)
    ensures RecomputeCalls(mode, false, lds, width, height, r)
            == if r.enqueue == 0 then [Launched()] + HandCalls(mode, width, height, r) else []
    ensures forall e :: e in RecomputeCalls(mode, false, lds, width, height, r) ==> !e.Write? && !e.SetArg?
  {
    var hand := HandCalls(mode, width, height, r);
    assert forall e :: e in hand ==> !e.Write? && !e.SetArg?;
  }

  /** In shared mode a Recompute that gets through is a legal hand-off that
      gives the image back to GL, acquiring and releasing it once, with the
      copy into it in between. */
  lemma SharedRecomputeBalanced(own: Ownership, gated: bool, lds: bool, width: nat, height: nat)
    requires own.Keys == SharedObjects(Shared) && own[Image] == Draw
    ensures var plan := RecomputePlan(Shared, gated, lds, width, height);
            Legal(own, plan) && Replay(own, plan) == own
            && Acquired(plan) == [Image] && Released(plan) == [Image]
  {
    var args := if gated then Upload() + ArgEvents(ArgTable(lds)) else [];
    var pre := args + [Launched()];
    var work := [CopyToImage(MatrixC, Image)];
    var plan := RecomputePlan(Shared, gated, lds, width, height);
    OneObject(Image, []);
    assert plan == pre + AcquireAll([Image], []) + work + ReleaseAll([Image], []) + [];
    ArgCallsQuiet(ArgTable(lds), a => true);
    assert Quiet(own, pre) by {
      assert forall o :: Quiet(o, ArgEvents(ArgTable(lds)));
      forall i | 0 <= i < |pre| ensures Neutral(pre[i]) && Allowed(own, pre[i]) {
        if gated && 3 <= i < |args| {
          assert pre[i] == ArgEvents(ArgTable(lds))[i - 3];
        }
      }
    }
    HoldingSpec(own, [Image]);
    Bracket(own, pre, [Image], [], work, []);
    assert forall i :: 0 <= i < |pre| ==> Neutral(pre[i]);
    BracketOrder(pre, [Image], [], work, []);
  }

  // ---------------------------------------------------------------------
  // Command line

  /** What main takes from argv. */
  datatype Switches = Switches(useGpu: int, lds: bool)

  /** The switch names in the order main tests them. */
  const SwitchNames: seq<string> := ["cpu", "gpu", "lds"]

  /** The switches main reads off `argv`: the last device token wins, and a
      token classed as "lds" switches Lds on for good. */
  function Parsed(argv: seq<string>): Switches
  {
    var ks := Kinds(argv, SwitchNames);
    Switches(DeviceAfter(ks), Seen(ks, 2))
  }

  /** The parse loop of main over every token, argv[0] included. */
  method ParseArgs(argv: seq<string>) returns (s: Switches)
    ensures s == Parsed(argv)
  {
    ghost var ks := Kinds(argv, SwitchNames);
    s := Switches(1, false);
    for i := 0 to |argv|
      invariant s == Switches(DeviceAfter(ks[..i]), Seen(ks[..i], 2))
    {
      assert ks[..i + 1][..i] == ks[..i];
      var c := Classify(argv[i], SwitchNames);
      if c == Some(0) {
        s := s.(useGpu := 0);
      } else if c == Some(1) {
        s := s.(useGpu := 1);
      } else if c == Some(2) {
        s := s.(lds := true);
      }
    }
    assert ks[..|argv|] == ks;
  }

  /** Lds is switched on exactly by a token that contains "lds" and neither
      "cpu" nor "gpu": the first match of a token wins, so "cpu-lds" selects
      the CPU and leaves Lds off. */
  lemma LdsFromOwnToken(argv: seq<string>)
    ensures Parsed(argv).lds <==>
              exists i :: 0 <= i < |argv| && Contains(argv[i], "lds")
                          && !Contains(argv[i], "cpu") && !Contains(argv[i], "gpu")
  {
    var ks := Kinds(argv, SwitchNames);
    SeenSomewhere(ks, 2);
    forall i | 0 <= i < |argv|
      ensures ks[i] == Some(2) <==> Contains(argv[i], "lds") && !Contains(argv[i], "cpu") && !Contains(argv[i], "gpu")
    {
      var c := Classify(argv[i], SwitchNames);
      assert SwitchNames[0] == "cpu" && SwitchNames[1] == "gpu" && SwitchNames[2] == "lds";
      if Contains(argv[i], "lds") && !Contains(argv[i], "cpu") && !Contains(argv[i], "gpu") {
        assert c.Some?;
      }
    }
  }

  // ---------------------------------------------------------------------
  // The controller

  /** What Initialize meets: everything set up, with the kernel's work-group
      limit; an internal failure that calls exit(code); or a device without
      image support, which it reports by its result. */
  datatype InitReply = Ready(maxWorkGroupSize: nat) | Abort(code: int) | NoImageSupport

  /** The kernel SetupComputeKernel creates. */
  function KernelName(lds: bool): string
  {
    if lds then "mmmKernel_local" else "mmmKernel"
  }

  /** The process-wide state of the sample. */
  class Controller {
    const mode: Mode
    const pool: ResourcePool
    var width: nat
    var height: nat
    var textureWidth: nat
    var textureHeight: nat
    var animated: bool
    var update: bool
    var lds: bool
    var showInfo: nat
    var showStats: nat
    /** MaxWorkGroupSize, a `size_t`. */
    var maxWorkGroupSize: nat
    var workGroupSize: (int, int)
    var kernelName: string
    /** ComputeKernel and ComputeMatrixC are both non-null. */
    var computeReady: bool
    /** The process has gone through exit(). */
    var exited: bool
    /** The process has died on a division by zero. */
    var crashed: bool

    ghost predicate Valid()
      reads this, pool
    {
      pool.Valid() && pool.initial.Keys == SharedObjects(mode)
    }

    /** Running, with the texture back with GL. */
    ghost predicate Running()
      reads this, pool
    {
      Valid() && !exited && !crashed && Settled(pool.owner)
    }

    /** The static initial values, before main runs. */
    constructor (mode: Mode)
      ensures Running() && this.mode == mode && fresh(pool) && pool.trace == []
      ensures width == InitialWindow && height == InitialWindow
      ensures textureWidth == InitialWindow && textureHeight == InitialWindow
      ensures !animated && update && !lds && showInfo == 1 && showStats == 1 && !computeReady
    {
      this.mode := mode;
      pool := new ResourcePool(SharedObjects(mode));
      width, height := Width1, Height0;
      textureWidth, textureHeight := InitialWindow, InitialWindow;
      animated, update, lds := false, true, false;
      showInfo, showStats := 1, 1;
      maxWorkGroupSize, workGroupSize := 0, (0, 0);
      kernelName := "";
      computeReady := false;
      exited, crashed := false, false;
    }

    /** The tail of SetupComputeKernel: the kernel is the local-memory one
        when Lds is on, and the work-group split follows the kernel's
        limit; a split that divides by zero kills the process. */
    method SetupKernel(limit: nat)
      requires Running() && limit < U64
      modifies this`maxWorkGroupSize, this`workGroupSize, this`kernelName, this`crashed
      ensures kernelName == KernelName(lds) && maxWorkGroupSize == limit
      ensures crashed <==> Split(limit).None?
      ensures !crashed ==> Some(workGroupSize) == Split(limit)
    {
      kernelName := if lds then "mmmKernel_local" else "mmmKernel";
      maxWorkGroupSize := limit;
      var w0 := AsI32((if limit > 1 then limit / WorkGroupItems else limit) % U32);
      var divisor := w0 % U64;
      if divisor == 0 {
        crashed := true;
        return;
      }
      workGroupSize := (w0, AsI32(limit / divisor % U32));
    }

    /** Initialize: the texture is made the size of the window, then devices,
        kernel and buffers are set up. */
    method Initialize(reply: InitReply) returns (out: Outcome, status: int)
      requires Running()
      requires reply.Ready? ==> reply.maxWorkGroupSize < U64
      modifies this`textureWidth, this`textureHeight, this`maxWorkGroupSize, this`workGroupSize,
               this`kernelName, this`computeReady, this`exited, this`crashed
      ensures Valid() && Settled(pool.owner)
      ensures textureWidth == width && textureHeight == height
      ensures reply.Abort? ==> out == Exit(reply.code) && exited
      ensures reply.NoImageSupport? ==>
                out == Continue && status == ImageFormatNotSupported && Running() && computeReady == old(computeReady)
      ensures reply.Ready? ==>
                kernelName == KernelName(lds) && maxWorkGroupSize == reply.maxWorkGroupSize
                && (crashed <==> Split(reply.maxWorkGroupSize).None?)
                && (!crashed ==> out == Continue && status == 0 && Running() && computeReady
                                 && Some(workGroupSize) == Split(reply.maxWorkGroupSize))
    {
      textureWidth, textureHeight := width, height;
      match reply
      case Abort(code) =>
        exited := true;
        return Exit(code), 0;
      case NoImageSupport =>
        return Continue, ImageFormatNotSupported;
      case Ready(limit) =>
        SetupKernel(limit);
        if crashed {
          return Continue, 0;
        }
        computeReady := true;
        return Continue, 0;
    }
    /** main up to the event loop: the switches (Lds switched on by an
        "lds" token), then Initialize; main returns 0 without entering the
        loop when Initialize reports an error. */
    method Start(argv: seq<string>, reply: InitReply) returns (out: Outcome, s: Switches)
      requires Running() && !computeReady
      requires reply.Ready? ==> reply.maxWorkGroupSize < U64
      modifies this`lds, this`textureWidth, this`textureHeight, this`maxWorkGroupSize, this`workGroupSize,
               this`kernelName, this`computeReady, this`exited, this`crashed
      ensures s == Parsed(argv)
      ensures lds == (old(lds) || s.lds)
      ensures Valid() && Settled(pool.owner)
      ensures textureWidth == width && textureHeight == height
      ensures reply.Abort? ==> out == Exit(reply.code) && exited
      ensures reply.NoImageSupport? ==> out == Exit(0) && exited
      ensures reply.Ready? ==>
                kernelName == KernelName(lds) && maxWorkGroupSize == reply.maxWorkGroupSize
                && (crashed <==> Split(reply.maxWorkGroupSize).None?)
                && (!crashed ==> out == Continue && Running() && computeReady
                                 && Some(workGroupSize) == Split(reply.maxWorkGroupSize))
    {
      s := ParseArgs(argv);
      if s.lds {
        lds := true;
      }
      var status;
      out, status := Initialize(reply);
      if out == Continue && status != 0 {
        exited := true;
        out := Exit(0);
      }
    }

    /** Recompute: with a live kernel, the upload and the arguments when
        Animated or Update (clearing Update), the dispatch on every call,
        then the hand-over of the product to the texture. */
    method Recompute(r: Replies) returns (err: int)
      requires Running()
      modifies this`update, pool
      ensures Valid()
      ensures err == (if computeReady then RecomputeStatus(mode, animated || old(update), lds, r) else 0)
      ensures pool.trace == old(pool.trace)
                + (if computeReady then RecomputeCalls(mode, animated || old(update), lds, width, height, r) else [])
      ensures err == 0 ==> Settled(pool.owner)
      ensures update == (old(update) && !computeReady)
    {
      if !computeReady {
        return 0;
      }
      var gated := animated || update;
      ghost var t0 := pool.trace;
      err := Launch(r, gated);
      if err != 0 {
        return;
      }
      var ok := HandOver(r);
      AppendAssoc(t0, LaunchCalls(gated, lds, r), HandCalls(mode, width, height, r));
      if !ok {
        return 1;
      }
    }

    /** The launch: the gated preparation (an argument failure gives -10),
        then the kernel is enqueued. */
    method Launch(r: Replies, gated: bool) returns (err: int)
      requires Valid() && Settled(pool.owner)
      modifies this`update, pool
      ensures Valid() && pool.owner == old(pool.owner)
      ensures update == (old(update) && !gated)
      ensures err == LaunchStatus(gated, lds, r)
      ensures pool.trace == old(pool.trace) + LaunchCalls(gated, lds, r)
    {
      var failed := Prepare(r, gated);
      if failed {
        return -10;
      }
      if r.enqueue != 0 {
        return r.enqueue;
      }
      pool.Emit(Launched());
      return 0;
    }

    /** The block of Recompute taken when Animated or Update: both matrices
        uploaded, Update cleared, every argument set; the result says
        whether an argument call failed. */
    method Prepare(r: Replies, gated: bool) returns (failed: bool)
      requires Valid() && Settled(pool.owner)
      modifies this`update, pool
      ensures Valid() && pool.owner == old(pool.owner)
      ensures update == (old(update) && !gated)
      ensures failed <==> gated && !AllSet(ArgTable(lds), r.arg)
      ensures pool.trace == old(pool.trace) + (if gated then Upload() + ArgCalls(ArgTable(lds), r.arg) else [])
    {
      if !gated {
        return false;
      }
      ghost var t0 := pool.trace;
      pool.Emit(Write(MatrixA, MatrixBytes));
      pool.Emit(Write(MatrixB, MatrixBytes));
      pool.Emit(Flush);
      assert pool.trace == t0 + Upload();
      update := false;
      failed := SetArgs(pool, ArgTable(lds), r.arg);
      AppendAssoc(t0, Upload(), ArgCalls(ArgTable(lds), r.arg));
    }

    /** The hand-over after the dispatch: in shared mode acquire the image
        (call 0), copy the product into it (call 1) and release it (call 2),
        each failure returning at once; in copy mode read the product back
        (call 0), as many bytes as the window has pixels times four. */
    method HandOver(r: Replies) returns (ok: bool)
      requires Valid() && Settled(pool.owner)
      modifies pool
      ensures Valid()
      ensures ok == HandOk(mode, r)
      ensures pool.trace == old(pool.trace) + HandCalls(mode, width, height, r)
      ensures ok ==> Settled(pool.owner)
    {
      if mode == Shared {
        if !r.transfer(0) {
          return false;
        }
        pool.Emit(Acquire(Image));
        if !r.transfer(1) {
          return false;
        }
        pool.Emit(CopyToImage(MatrixC, Image));
        if !r.transfer(2) {
          return false;
        }
        pool.Emit(Release(Image));
        assert forall m :: m in pool.owner ==> m == Image;
        return true;
      }
      if !r.transfer(0) {
        return false;
      }
      pool.Emit(Read(MatrixC, ReadBackBytes(width, height)));
      return true;
    }

    /** Display_: Recompute (whose failure ends the process with exit(1)),
        the texture drawn, the info banner counted down. */
    method Display(r: Replies) returns (out: Outcome)
      requires Running()
      modifies this`update, this`showInfo, this`exited, pool
      ensures Valid() && !crashed
      ensures out == Continue || out == Exit(1)
      ensures out == Continue <==> !computeReady || Succeeds(mode, animated || old(update), lds, r)
      ensures out == Exit(1) ==> exited
      ensures out == Continue ==>
                Running() && showInfo == NextInfo(old(showInfo)) && update == (old(update) && !computeReady)
                && pool.trace == old(pool.trace)
                   + (if computeReady then RecomputeCalls(mode, animated || old(update), lds, width, height, r) else [])
                   + [DrawTouch(Image)]
    {
      var err := Recompute(r);
      if err != 0 {
        exited := true;
        return Exit(1);
      }
      pool.Emit(DrawTouch(Image));
      ReportInfo();
      return Continue;
    }

    /** ReportInfo: while the info banner is up, count the frames it has
        been up. */
    method ReportInfo()
      modifies this`showInfo
      ensures showInfo == NextInfo(old(showInfo))
    {
      if showInfo != 0 {
        showInfo := if showInfo > 200 then 0 else showInfo + 1;
      }
    }

    /** Keyboard: Escape exits; space toggles the animation and raises the
        banner; 'i' and 's' toggle the banners. Every key but Escape asks
        for new arguments. */
    method Keyboard(key: char) returns (out: Outcome)
      requires Running()
      modifies this`animated, this`showInfo, this`showStats, this`update, this`exited
      ensures out == Exit(0) <==> key == Escape
      ensures key == Escape ==> exited
      ensures key != Escape ==> out == Continue && Running() && update
      ensures key == ' ' ==> animated == !old(animated) && showInfo == 1
      ensures key != ' ' ==> animated == old(animated)
      ensures key == 'i' ==> showInfo == Toggle(old(showInfo))
      ensures key == 's' ==> showStats == Toggle(old(showStats))
      ensures key != ' ' && key != 'i' ==> showInfo == old(showInfo)
      ensures key != 's' ==> showStats == old(showStats)
    {
      if key == Escape {
        exited := true;
        return Exit(0);
      } else if key == ' ' {
        animated := !animated;
        showInfo := 1;
      } else if key == 'i' {
        showInfo := Toggle(showInfo);
      } else if key == 's' {
        showStats := Toggle(showStats);
      }
      update := true;
      return Continue;
    }

    /** Reshape: a window that outgrows twice the current size tears the
        compute side down and builds it again for the new size (a failed
        rebuild shuts down with exit(0)); the new size is kept in every case,
        the texture only when rebuilt. */
    method Reshape(w: nat, h: nat, reply: InitReply) returns (out: Outcome)
      requires Running()
      requires reply.Ready? ==> reply.maxWorkGroupSize < U64
      modifies this`width, this`height, this`textureWidth, this`textureHeight, this`maxWorkGroupSize,
               this`workGroupSize, this`kernelName, this`computeReady, this`exited, this`crashed, pool
      ensures Valid() && Settled(pool.owner)
      ensures width == w && height == h
      ensures !Outgrows(w, h, old(width), old(height)) ==>
                out == Continue && Running() && pool.trace == old(pool.trace)
                && computeReady == old(computeReady) && textureWidth == old(textureWidth)
                && textureHeight == old(textureHeight) && maxWorkGroupSize == old(maxWorkGroupSize)
                && workGroupSize == old(workGroupSize) && kernelName == old(kernelName)
      ensures Outgrows(w, h, old(width), old(height)) ==>
                pool.trace == old(pool.trace) + [Restart] && textureWidth == w && textureHeight == h
                && match reply
                   case Ready(limit) => kernelName == KernelName(lds) && maxWorkGroupSize == limit
                                        && (crashed <==> Split(limit).None?)
                                        && (!crashed ==> out == Continue && Running() && computeReady
                                                         && Some(workGroupSize) == Split(limit))
                   case Abort(code) => out == Exit(code) && exited
                   case NoImageSupport => out == Exit(0) && exited
    {
      out := Continue;
      if Outgrows(w, h, width, height) {
        width, height := w, h;
        Cleanup();
        var status;
        out, status := Initialize(reply);
        if out == Continue && status != 0 {
          exited := true;
          out := Exit(0);
        }
      }
      width, height := w, h;
    }

    /** Cleanup: every compute object is released and its handle nulled. */
    method Cleanup()
      requires Running()
      modifies this`computeReady, pool
      ensures Running() && !computeReady
      ensures pool.trace == old(pool.trace) + [Restart] && pool.owner == old(pool.owner)
    {
      pool.Emit(Restart);
      computeReady := false;
    }
  }
}
