/** The frame controller of the GaussianNoise sample
    (trunk/src/naive/GaussianNoise/GaussianNoise.cpp): a noise filter over a
    bitmap whose strength `VarFactor` oscillates while the animation runs. */
module GaussianNoise {
  import opened Interop
  import opened Glut
  import opened CommandLine

  const GroupSize := 64          // GROUP_SIZE
  const Factor := 60             // FACTOR, the initial VarFactor
  const PixelBytes := 4          // sizeof(uchar4)
  const UIntModulus := 0x1_0000_0000
  /** CL_IMAGE_FORMAT_NOT_SUPPORTED: what Initialize returns when the device
      has no image support. */
  const ImageFormatNotSupported := -10

  const InputImage := Mem("ComputeInputImage", 0)
  const OutputImage := Mem("ComputeOutputImage", 0)

  /** The GL-shared objects: the output image aliases the display texture. */
  function SharedObjects(mode: Mode): set<Mem>
  {
    if mode == Shared then {OutputImage} else {}
  }

  // ---------------------------------------------------------------------
  // The VarFactor oscillator of Display_

  /** The band the oscillator keeps to: an even factor in [20, 100] and a
      step of 2 either way. */
  predicate InBand(varFactor: int, incre: int)
  {
    varFactor % 2 == 0 && 20 <= varFactor <= 100 && (incre == 2 || incre == -2)
  }

  /** One animated frame: the step turns down at 100 and up at 20, then is
      added. */
  function Oscillate(varFactor: int, incre: int): (r: (int, int))
    ensures InBand(varFactor, incre) ==> InBand(r.0, r.1)
    ensures (incre == 2 || incre == -2) ==> (r.0 == varFactor + 2 || r.0 == varFactor - 2)
  {
    var step := if varFactor == 100 then -2 else if varFactor == 20 then 2 else incre;
    (varFactor + step, step)
  }

  /** `n` animated frames. */
  function OscillateN(varFactor: int, incre: int, n: nat): (int, int)
    decreases n
  {
    if n == 0 then (varFactor, incre)
    else
      var next := Oscillate(varFactor, incre);
      OscillateN(next.0, next.1, n - 1)
  }

  /** Animation alone never leaves the band. */
  lemma {:induction false} StaysInBand(varFactor: int, incre: int, n: nat)
    requires InBand(varFactor, incre)
    ensures InBand(OscillateN(varFactor, incre, n).0, OscillateN(varFactor, incre, n).1)
    decreases n
  {
    if n > 0 {
      var next := Oscillate(varFactor, incre);
      StaysInBand(next.0, next.1, n - 1);
    }
  }

  /** The '+' key is not clamped: pressed at 100 while the factor rises, it
      leaves the band above, and from there animation only climbs, by 2 per
      frame, without end. */
  lemma {:induction false} RunsAwayAbove(varFactor: int, n: nat)
    requires varFactor > 100
    ensures OscillateN(varFactor, 2, n) == (varFactor + 2 * n, 2)
    decreases n
  {
    if n > 0 {
      RunsAwayAbove(varFactor + 2, n - 1);
    }
  }

  /** Likewise '-' pressed at 20 while the factor falls: it then only sinks. */
  lemma {:induction false} RunsAwayBelow(varFactor: int, n: nat)
    requires varFactor < 20
    ensures OscillateN(varFactor, -2, n) == (varFactor - 2 * n, -2)
    decreases n
  {
    if n > 0 {
      RunsAwayBelow(varFactor - 2, n - 1);
    }
  }

  // ---------------------------------------------------------------------
  // Work domain

  /** SetupComputeKernel: blocks of GROUP_SIZE x 1, unless the kernel allows
      fewer work items than GROUP_SIZE, in which case as many as it allows. */
  function BlockFor(maxBlockSize: nat): (b: (nat, nat))
    ensures b.1 == 1 && b.0 * b.1 <= maxBlockSize
    ensures b.0 <= GroupSize
    ensures b.0 == GroupSize || b.0 == maxBlockSize
  {
    if GroupSize * 1 > maxBlockSize then (maxBlockSize, 1) else (GroupSize, 1)
  }

  /** An unsigned int value: the residue modulo 2^32. */
  function Wrap(x: int): (r: nat)
    ensures r < UIntModulus
    ensures 0 <= x < UIntModulus ==> r == x
  {
    x % UIntModulus
  }

  /** Bytes of the copy-mode read-back, PixelSize * TextureWidth *
      TextureHeight in 32-bit unsigned arithmetic. */
  function ReadBackBytes(textureWidth: nat, textureHeight: nat): nat
  {
    Wrap(PixelBytes * textureWidth * textureHeight)
  }

  /** The kernel arguments: input image, output image, noise factor. */
  function ArgTable(varFactor: int): seq<Arg>
  {
    [Arg(0, MemArg(InputImage), HandleBytes),
     Arg(1, MemArg(OutputImage), HandleBytes),
     Arg(2, IntArg(varFactor), IntBytes)]
  }

  /** The hand-over before the kernel runs: the output image is acquired in
      shared mode; nothing in copy mode. */
  function Fetch(mode: Mode): seq<Event>
  {
    if mode == Shared then [Acquire(OutputImage)] else []
  }

  /** The hand-over after the kernel runs: the output image is released in
      shared mode and read back to the host in copy mode. */
  function Hand(mode: Mode, textureWidth: nat, textureHeight: nat): seq<Event>
  {
    if mode == Shared then [Release(OutputImage)] else [Read(OutputImage, ReadBackBytes(textureWidth, textureHeight))]
  }

  /** Which call of the frame hands the output image over after the kernel:
      the release is the second in shared mode, the read-back the first in
      copy mode. */
  function HandCall(mode: Mode): nat
  {
    if mode == Shared then 1 else 0
  }

  /** The dispatch of one frame: {Width/2, Height} work items in blocks. */
  function Launched(mode: Mode, width: nat, height: nat, block: (nat, nat)): Event
  {
    Dispatch([width / 2, height], [block.0, block.1], SharedObjects(mode))
  }

  /** The status of the launch between the hand-overs: -10 when an argument
      call fails (only a `gated` frame sets them), else the enqueue status. */
  function LaunchStatus(gated: bool, varFactor: int, r: Replies): (err: int)
    ensures err == 0 <==> (!gated || AllSet(ArgTable(varFactor), r.arg)) && r.enqueue == 0
    ensures err != 0 ==> err == -10 || err == r.enqueue
  {
    if gated && !AllSet(ArgTable(varFactor), r.arg) then -10
    else r.enqueue
  }

  /** The calls of the launch: the argument calls of a gated frame (every
      one is made, the failures are OR-ed together), then the dispatch if
      the launch succeeds. */
  function LaunchCalls(mode: Mode, gated: bool, varFactor: int, width: nat, height: nat,
                       block: (nat, nat), r: Replies): seq<Event>
  {
    (if gated then ArgCalls(ArgTable(varFactor), r.arg) else [])
    + (if LaunchStatus(gated, varFactor, r) == 0 then [Launched(mode, width, height, block)] else [])
  }

  /** The status Recompute returns when the kernel exists: EXIT_FAILURE (1)
      for a failed hand-over, otherwise the launch status. */
  function RecomputeStatus(mode: Mode, gated: bool, varFactor: int, r: Replies): (err: int)
    ensures err == 0 <==> Succeeds(mode, gated, varFactor, r)
    ensures err != 0 ==> err == 1 || err == -10 || err == r.enqueue
  {
    if mode == Shared && !r.transfer(0) then 1
    else if LaunchStatus(gated, varFactor, r) != 0 then LaunchStatus(gated, varFactor, r)
    else if !r.transfer(HandCall(mode)) then 1
    else 0
  }

  /** The calls of a Recompute with a live kernel after glFinish, up to the
      first failure: the hand-over, the launch, the hand-back and clFinish. */
  function FrameCalls(mode: Mode, gated: bool, varFactor: int, width: nat, height: nat, block: (nat, nat),
                      textureWidth: nat, textureHeight: nat, r: Replies): seq<Event>
  {
    if mode == Shared && !r.transfer(0) then []
    else if LaunchStatus(gated, varFactor, r) != 0 || !r.transfer(HandCall(mode)) then
      Fetch(mode) + LaunchCalls(mode, gated, varFactor, width, height, block, r)
    else
      Fetch(mode) + LaunchCalls(mode, gated, varFactor, width, height, block, r)
      + Hand(mode, textureWidth, textureHeight) + [Finish]
  }

  /** The calls Recompute makes: glFinish, then the frame when the kernel
      exists (`ready`). */
  function RecomputeCalls(ready: bool, mode: Mode, gated: bool, varFactor: int, width: nat, height: nat,
                          block: (nat, nat), textureWidth: nat, textureHeight: nat, r: Replies): seq<Event>
  {
    [GlFinish] + (if ready then FrameCalls(mode, gated, varFactor, width, height, block, textureWidth, textureHeight, r)
                  else [])
  }

  /** The calls of a Recompute that gets through: the kernel runs over
      {Width/2, Height} in blocks, between the two hand-overs; the arguments
      are set only when the frame is `gated` (Animated or Update). */
  function RecomputePlan(mode: Mode, gated: bool, varFactor: int, width: nat, height: nat,
                         block: (nat, nat), textureWidth: nat, textureHeight: nat): seq<Event>
  {
    [GlFinish] + Fetch(mode) + (if gated then ArgEvents(ArgTable(varFactor)) else [])
    + [Launched(mode, width, height, block)]
    + Hand(mode, textureWidth, textureHeight) + [Finish]
  }

  /** When every call succeeds, the calls made are the plan. */
  lemma {:induction false} CallsFollowPlan(mode: Mode, gated: bool, varFactor: int, width: nat, height: nat,
                                           block: (nat, nat), textureWidth: nat, textureHeight: nat, r: Replies)
    requires Succeeds(mode, gated, varFactor, r)
    ensures [GlFinish] + FrameCalls(mode, gated, varFactor, width, height, block, textureWidth, textureHeight, r)
            == RecomputePlan(mode, gated, varFactor, width, height, block, textureWidth, textureHeight)
  {
    if gated {
      ArgCallsAllSet(ArgTable(varFactor), r.arg);
    }
  }

  /** In shared mode a Recompute that gets through is a legal hand-off that
      gives the output image back to GL, acquiring and releasing it once. */
  lemma SharedRecomputeBalanced(own: Ownership, gated: bool, varFactor: int, width: nat, height: nat,
                                block: (nat, nat), textureWidth: nat, textureHeight: nat)
    requires OutputImage in own && own[OutputImage] == Draw
    ensures var plan := RecomputePlan(Shared, gated, varFactor, width, height, block, textureWidth, textureHeight);
            Legal(own, plan) && Replay(own, plan) == own
            && Acquired(plan) == [OutputImage] && Released(plan) == [OutputImage]
  {
    var args := if gated then ArgEvents(ArgTable(varFactor)) else [];
    var work := args + [Launched(Shared, width, height, block)];
    var plan := RecomputePlan(Shared, gated, varFactor, width, height, block, textureWidth, textureHeight);
    OneObject(OutputImage, []);
    assert plan == [GlFinish] + AcquireAll([OutputImage], []) + work + ReleaseAll([OutputImage], []) + [Finish];
    ArgCallsQuiet(ArgTable(varFactor), a => true);
    HoldingSpec(own, [OutputImage]);
    assert Quiet(Holding(own, [OutputImage]), work) by {
      assert Quiet(Holding(own, [OutputImage]), args);
      forall i | 0 <= i < |work|
        ensures Neutral(work[i]) && Allowed(Holding(own, [OutputImage]), work[i])
      {
        if i < |args| {
          assert work[i] == args[i];
        }
      }
    }
    Bracket(own, [GlFinish], [OutputImage], [], work, [Finish]);
    BracketOrder([GlFinish], [OutputImage], [], work, [Finish]);
  }

  // ---------------------------------------------------------------------
  // Command line

  /** What main takes from argv. */
  datatype Switches = Switches(useGpu: int, animate: bool, output: bool)

  /** The switch names in the order main tests them. */
  const SwitchNames: seq<string> := ["-cpu", "-gpu", "-animate", "-output"]

  /** The switches main reads off `argv`: the last device token wins, and
      "-animate" and "-output" switch their flags on. */
  function Parsed(argv: seq<string>): Switches
  {
    var ks := Kinds(argv, SwitchNames);
    Switches(DeviceAfter(ks), Seen(ks, 2), Seen(ks, 3))
  }

  /** The parse loop of main over every token, argv[0] included. */
  method ParseArgs(argv: seq<string>) returns (s: Switches)
    ensures s == Parsed(argv)
  {
    ghost var ks := Kinds(argv, SwitchNames);
    s := Switches(1, false, false);
    for i := 0 to |argv|
      invariant s == Switches(DeviceAfter(ks[..i]), Seen(ks[..i], 2), Seen(ks[..i], 3))
    {
      assert ks[..i + 1][..i] == ks[..i];
      var c := Classify(argv[i], SwitchNames);
      if c == Some(0) {
        s := s.(useGpu := 0);
      } else if c == Some(1) {
        s := s.(useGpu := 1);
      } else if c == Some(2) {
        s := s.(animate := true);
      } else if c == Some(3) {
        s := s.(output := true);
      }
    }
    assert ks[..|argv|] == ks;
  }

  // ---------------------------------------------------------------------
  // The controller

  /** What Initialize meets: everything set up, with the kernel's work-group
      limit; an internal failure that calls exit(code); or a device without
      image support, which it reports by its result. */
  datatype InitReply = Ready(maxBlockSize: nat) | Abort(code: int) | NoImageSupport

  /** Does every fallible call of a Recompute with a live kernel succeed? */
  predicate Succeeds(mode: Mode, gated: bool, varFactor: int, r: Replies)
  {
    (mode == Copy || r.transfer(0))
    && (!gated || AllSet(ArgTable(varFactor), r.arg))
    && r.enqueue == 0
    && r.transfer(if mode == Shared then 1 else 0)
  }

  /** The process-wide state of the sample. */
  class Controller {
    const mode: Mode
    const pool: ResourcePool
    var varFactor: int
    var incre: int
    var width: nat
    var height: nat
    var textureWidth: nat
    var textureHeight: nat
    var animated: bool
    var update: bool
    var showInfo: nat
    var showStats: nat
    var enableOutput: bool
    /** NDRangeCount, an unsigned int. */
    var ndRangeCount: nat
    var maxBlockSize: nat
    var block: (nat, nat)
    /** ComputeKernel and ComputeOutputImage are both non-null. */
    var computeReady: bool
    /** The process has gone through exit(). */
    var exited: bool

    ghost predicate Valid()
      reads this, pool
    {
      pool.Valid() && pool.initial.Keys == SharedObjects(mode)
      && ndRangeCount < UIntModulus
      && (computeReady ==> block == BlockFor(maxBlockSize))
    }

    /** Running, with every GL-shared object back with GL. */
    ghost predicate Running()
      reads this, pool
    {
      Valid() && !exited && Settled(pool.owner)
    }

    /** The static initial values, before main runs. */
    constructor (mode: Mode)
      ensures Running() && this.mode == mode && fresh(pool) && pool.trace == []
      ensures varFactor == Factor && incre == 2 && InBand(varFactor, incre)
      ensures width == 0 && height == 0 && !animated && update && showInfo == 1 && showStats == 1
      ensures ndRangeCount == 0 && !computeReady && !enableOutput
    {
      this.mode := mode;
      pool := new ResourcePool(SharedObjects(mode));
      varFactor := Factor;
      incre := 2;
      width, height := 0, 0;
      textureWidth, textureHeight := 0, 0;
      animated, update := false, true;
      showInfo, showStats := 1, 1;
      enableOutput := false;
      ndRangeCount := 0;
      maxBlockSize := 0;
      block := (0, 0);
      computeReady := false;
      exited := false;
    }

    /** Initialize: the texture is made the size of the window, then devices,
        kernel (and with it the block size) and buffers are set up. */
    method Initialize(reply: InitReply) returns (out: Outcome, status: int)
      requires Running()
      modifies this`textureWidth, this`textureHeight, this`maxBlockSize, this`block,
               this`computeReady, this`exited
      ensures Running() || exited
      ensures textureWidth == width && textureHeight == height
      ensures reply.Ready? ==> out == Continue && status == 0 && Running() && computeReady
                               && maxBlockSize == reply.maxBlockSize && block == BlockFor(reply.maxBlockSize)
      ensures reply.Abort? ==> out == Exit(reply.code) && exited
      ensures reply.NoImageSupport? ==> out == Continue && status == ImageFormatNotSupported && Running()
                                        && computeReady == old(computeReady)
    {
      textureWidth, textureHeight := width, height;
      match reply
      case Abort(code) =>
        exited := true;
        return Exit(code), 0;
      case NoImageSupport =>
        return Continue, ImageFormatNotSupported;
      case Ready(limit) =>
        maxBlockSize := limit;
        block := BlockFor(limit);
        computeReady := true;
        return Continue, 0;
    }

    /** main up to the event loop: the switches, InitData (the window takes the
        bitmap's size; exit(-1) if it cannot be read), then Initialize; main
        returns 0 without entering the loop when Initialize reports an error. */
    method Start(argv: seq<string>, bitmap: Option<(nat, nat)>, reply: InitReply)
      returns (out: Outcome, s: Switches)
      requires Running() && !computeReady
      modifies this
      ensures s == Parsed(argv)
      ensures Running() || exited
      ensures animated == (old(animated) || s.animate) && enableOutput == (old(enableOutput) || s.output)
      ensures bitmap.None? ==> out == Exit(-1) && exited
      ensures bitmap.Some? ==> width == bitmap.value.0 && height == bitmap.value.1
      ensures bitmap.Some? ==> textureWidth == width && textureHeight == height
      ensures bitmap.Some? && reply.Ready? ==> out == Continue && Running() && computeReady
                                               && maxBlockSize == reply.maxBlockSize
                                               && block == BlockFor(reply.maxBlockSize)
      ensures bitmap.Some? && reply.Abort? ==> out == Exit(reply.code) && exited
      ensures bitmap.Some? && reply.NoImageSupport? ==> out == Exit(0) && exited
    {
      s := ParseArgs(argv);
      if s.animate {
        animated := true;
      }
      if s.output {
        enableOutput := true;
      }
      if bitmap.None? {
        exited := true;
        return Exit(-1), s;
      }
      width, height := bitmap.value.0, bitmap.value.1;
      textureWidth, textureHeight := width, height;
      var status;
      out, status := Initialize(reply);
      if out == Continue && status != 0 {
        exited := true;
        out := Exit(0);
      }
    }

    /** Recompute: with a live kernel, acquire the output image (shared mode),
        set the arguments when Animated or Update (clearing Update), run the
        kernel, then release the image (shared mode) or read it back (copy
        mode) and count the dispatch. */
    method Recompute(r: Replies) returns (err: int)
      requires Running()
      modifies this`update, this`ndRangeCount, pool
      ensures Valid()
      ensures err == (if computeReady then RecomputeStatus(mode, animated || old(update), varFactor, r) else 0)
      ensures pool.trace == old(pool.trace) + RecomputeCalls(computeReady, mode, animated || old(update), varFactor,
                                                             width, height, block, textureWidth, textureHeight, r)
      ensures err == 0 ==> Settled(pool.owner)
      ensures ndRangeCount == if err == 0 && computeReady then Wrap(old(ndRangeCount) + 1) else old(ndRangeCount)
      ensures update == (old(update) && !(computeReady && (mode == Copy || r.transfer(0))))
    {
      var gated := animated || update;
      ghost var t0 := pool.trace;
      pool.Emit(GlFinish);
      if !computeReady {
        return 0;
      }
      err := Frame(r, gated);
      AppendAssoc(t0, [GlFinish],
                  FrameCalls(mode, gated, varFactor, width, height, block, textureWidth, textureHeight, r));
    }

    /** Recompute past the kernel check: hand-over, launch, hand-back,
        clFinish and the dispatch count. */
    method Frame(r: Replies, gated: bool) returns (err: int)
      requires Running() && computeReady
      requires update ==> gated
      modifies this`update, this`ndRangeCount, pool
      ensures Valid()
      ensures err == RecomputeStatus(mode, gated, varFactor, r)
      ensures pool.trace == old(pool.trace) + FrameCalls(mode, gated, varFactor, width, height, block,
                                                         textureWidth, textureHeight, r)
      ensures err == 0 ==> Settled(pool.owner)
      ensures ndRangeCount == if err == 0 then Wrap(old(ndRangeCount) + 1) else old(ndRangeCount)
      ensures update == (old(update) && !(mode == Copy || r.transfer(0)))
    {
      ghost var t0 := pool.trace;
      var ok := TakeOutput(r);
      if !ok {
        return 1;
      }
      ghost var calls := LaunchCalls(mode, gated, varFactor, width, height, block, r);
      err := Launch(r, gated);
      AppendAssoc(t0, Fetch(mode), calls);
      if err != 0 {
        return err;
      }
      ok := GiveOutput(r);
      if !ok {
        return 1;
      }
      AppendAssoc(t0, Fetch(mode) + calls, Hand(mode, textureWidth, textureHeight));
      pool.Emit(Finish);
      AppendAssoc(t0, Fetch(mode) + calls + Hand(mode, textureWidth, textureHeight), [Finish]);
      ndRangeCount := Wrap(ndRangeCount + 1);
    }

    /** The kernel launch between the hand-overs: the arguments are set when
        the frame is gated, clearing Update (an argument failure gives -10),
        then the kernel is enqueued over {Width/2, Height} in blocks. */
    method Launch(r: Replies, gated: bool) returns (err: int)
      requires Valid()
      requires mode == Shared ==> OutputImage in pool.owner && pool.owner[OutputImage] == Compute
      modifies this`update, pool
      ensures Valid() && pool.owner == old(pool.owner)
      ensures update == (old(update) && !gated)
      ensures err == LaunchStatus(gated, varFactor, r)
      ensures pool.trace == old(pool.trace) + LaunchCalls(mode, gated, varFactor, width, height, block, r)
    {
      if gated {
        update := false;
        var failed := SetArgs(pool, ArgTable(varFactor), r.arg);
        if failed {
          return -10;
        }
      }
      if r.enqueue != 0 {
        return r.enqueue;
      }
      pool.Emit(Launched(mode, width, height, block));
      return 0;
    }

    /** The hand-over before the kernel: in shared mode the output image is
        acquired from GL (call 0 of the frame). */
    method TakeOutput(r: Replies) returns (ok: bool)
      requires Valid() && Settled(pool.owner)
      modifies pool
      ensures Valid()
      ensures ok == (mode == Copy || r.transfer(0))
      ensures pool.trace == old(pool.trace) + (if ok then Fetch(mode) else [])
      ensures ok && mode == Shared ==> OutputImage in pool.owner && pool.owner[OutputImage] == Compute
      ensures mode == Copy ==> pool.owner == old(pool.owner)
    {
      ok := true;
      if mode == Shared {
        ok := r.transfer(0);
        if ok {
          pool.Emit(Acquire(OutputImage));
        }
      }
    }

    /** The hand-over after the kernel: in shared mode the output image goes
        back to GL (call 1), in copy mode it is read back to the host
        (call 0). */
    method GiveOutput(r: Replies) returns (ok: bool)
      requires Valid()
      requires mode == Shared ==> OutputImage in pool.owner && pool.owner[OutputImage] == Compute
      requires mode == Copy ==> Settled(pool.owner)
      modifies pool
      ensures Valid()
      ensures ok == r.transfer(HandCall(mode))
      ensures pool.trace == old(pool.trace) + (if ok then Hand(mode, textureWidth, textureHeight) else [])
      ensures ok ==> Settled(pool.owner)
    {
      if mode == Shared {
        ok := r.transfer(1);
        if ok {
          pool.Emit(Release(OutputImage));
        }
      } else {
        ok := r.transfer(0);
        if ok {
          pool.Emit(Read(OutputImage, ReadBackBytes(textureWidth, textureHeight)));
        }
      }
    }

    /** Display_: one animation step of the oscillator, Recompute (whose
        failure ends the process with exit(1)), the texture drawn, the info
        banner counted down. */
    method Display(r: Replies) returns (out: Outcome)
      requires Running()
      modifies this`varFactor, this`incre, this`update, this`ndRangeCount, this`showInfo, this`exited, pool
      ensures Running() || exited
      ensures (varFactor, incre) == if animated then Oscillate(old(varFactor), old(incre))
                                    else (old(varFactor), old(incre))
      ensures out == Continue || out == Exit(1)
      ensures out == Continue <==> !computeReady || Succeeds(mode, animated || old(update), varFactor, r)
      ensures out == Continue ==>
                Running() && showInfo == NextInfo(old(showInfo))
                && pool.trace == old(pool.trace) + RecomputeCalls(computeReady, mode, animated || old(update),
                                                                  varFactor, width, height, block, textureWidth,
                                                                  textureHeight, r) + [DrawTouch(OutputImage)]
      ensures out == Exit(1) ==> exited
      ensures ndRangeCount == if out == Continue && computeReady then Wrap(old(ndRangeCount) + 1)
                              else old(ndRangeCount)
      ensures update == (old(update) && !(computeReady && (mode == Copy || r.transfer(0))))
    {
      Animate();
      var err := Recompute(r);
      if err != 0 {
        exited := true;
        return Exit(1);
      }
      pool.Emit(DrawTouch(OutputImage));
      ReportInfo();
      return Continue;
    }

    /** The oscillator step of Display_, taken only while Animated. */
    method Animate()
      modifies this`varFactor, this`incre
      ensures (varFactor, incre) == if animated then Oscillate(old(varFactor), old(incre))
                                    else (old(varFactor), old(incre))
    {
      if animated {
        if varFactor == 100 {
          incre := -2;
        } else if varFactor == 20 {
          incre := 2;
        }
        varFactor := varFactor + incre;
      }
    }

    /** ReportInfo: while the info banner is up, count the frames it has
        been up. */
    method ReportInfo()
      modifies this`showInfo
      ensures showInfo == NextInfo(old(showInfo))
    {
      if showInfo != 0 {
        showInfo := if showInfo > 200 then 0 else showInfo + 1;
      }
    }

    /** Keyboard: Escape exits; space toggles the animation and raises the
        banner; 'i' and 's' toggle the banners; '+' and '-' move the factor
        by 2 without any clamp; 'f' goes full screen. Every other key, and
        every key but Escape, asks for new arguments. */
    method Keyboard(key: char) returns (out: Outcome)
      requires Running()
      modifies this`exited, this`animated, this`showInfo, this`showStats, this`varFactor, this`update
      ensures out == Exit(0) <==> key == Escape
      ensures key == Escape ==> exited
      ensures key != Escape ==> Running() && update
      ensures key == ' ' ==> animated == !old(animated) && showInfo == 1
      ensures key != ' ' ==> animated == old(animated)
      ensures key == 'i' ==> showInfo == Toggle(old(showInfo))
      ensures key == 's' ==> showStats == Toggle(old(showStats))
      ensures key !in {' ', 'i'} ==> showInfo == old(showInfo)
      ensures key != 's' ==> showStats == old(showStats)
      ensures varFactor == old(varFactor) + (if key == '+' then 2 else if key == '-' then -2 else 0)
      ensures incre == old(incre) && ndRangeCount == old(ndRangeCount) && computeReady == old(computeReady)
      ensures width == old(width) && height == old(height) && block == old(block)
    {
      if key == Escape {
        exited := true;
        return Exit(0);
      } else if key == ' ' {
        animated := !animated;
        showInfo := 1;
      } else if key == 'i' {
        showInfo := Toggle(showInfo);
      } else if key == 's' {
        showStats := Toggle(showStats);
      } else if key == '+' {
        varFactor := varFactor + 2;
      } else if key == '-' {
        varFactor := varFactor - 2;
      }
      update := true;
      return Continue;
    }

    /** Reshape: a window that outgrows twice the current size tears the
        compute side down and builds it again for the new size (a failed
        rebuild shuts down with exit(0)); the new size is kept in every case. */
    method Reshape(w: nat, h: nat, reply: InitReply) returns (out: Outcome)
      requires Running()
      modifies this, pool
      ensures Running() || exited
      ensures width == w && height == h
      ensures !Outgrows(w, h, old(width), old(height)) ==>
                out == Continue && Running() && pool.trace == old(pool.trace)
                && computeReady == old(computeReady) && textureWidth == old(textureWidth)
                && textureHeight == old(textureHeight) && block == old(block)
      ensures Outgrows(w, h, old(width), old(height)) ==>
                pool.trace == old(pool.trace) + [Restart] && textureWidth == w && textureHeight == h
                && match reply
                   case Ready(limit) => out == Continue && Running() && computeReady && block == BlockFor(limit)
                   case Abort(code) => out == Exit(code) && exited
                   case NoImageSupport => out == Exit(0) && exited
      ensures ndRangeCount == old(ndRangeCount) && update == old(update) && animated == old(animated)
      ensures varFactor == old(varFactor) && incre == old(incre)
    {
      out := Continue;
      if Outgrows(w, h, width, height) {
        width, height := w, h;
        Cleanup();
        var status;
        out, status := Initialize(reply);
        if out == Continue && status != 0 {
          exited := true;
          out := Exit(0);
        }
      }
      width, height := w, h;
    }

    /** Cleanup: every compute object is released and its handle nulled. */
    method Cleanup()
      requires Running()
      modifies this`computeReady, pool
      ensures Running() && !computeReady
      ensures pool.trace == old(pool.trace) + [Restart] && pool.owner == old(pool.owner)
    {
      pool.Emit(Restart);
      computeReady := false;
    }
  }
}
