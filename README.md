# cl-gl-benchmark control logic in Dafny

The cl-gl-benchmark programs are OpenCL/OpenGL samples: GaussianNoise, NBody,
FFT, two optimized MatMul variants, a naive MatMul and VecAdd. Almost every
line calls into OpenGL, OpenCL, GLX or GLUT. This project models the integer
control logic around those calls and proves properties of it:

- the frame controllers, with their `Animated`/`Update` flags, dispatch
  counters, ping-pong buffer index, noise oscillator, keyboard and resize
  rules;
- the hand-off of GL-shared buffers between drawing (OpenGL) and compute
  (OpenCL), in shared mode (acquire, compute, release) and in copy mode
  (write, compute, read back);
- the work-domain arithmetic: matrix dimensions rounded to `blockSize * 4`,
  the 8/4 work-group ladder and local-memory check, NBody's particle count,
  GaussianNoise's block clamp, the naive MatMul work-group split and
  VecAdd's block fallback;
- the selection rules: command-line tokens classified by substring, the
  CPU/GPU device type, and VecAdd's probe for a screen with an interop
  device.

Each GL or CL call is an abstract `Event` appended to a ghost trace held by
an `Interop.ResourcePool`, together with a ghost map saying whether OpenGL
(`Draw`) or OpenCL (`Compute`) owns each shared object. A call that can fail
takes its status from a parameter (a `Replies` record or an `ok: nat -> bool`
indexed by call number), so every failure path is covered. `exit(code)`
becomes the outcome `Exit(code)` and sets an `exited` field; a division by
zero sets `crashed`. `USE_GL_ATTACHMENTS` is the `Mode` parameter `Shared` or
`Copy`, because the programs set it differently. Where a teardown and a
rebuild go through the same handle variables, each handle is `Null`, `Live`
or `Stale` (still holding what was released or freed), and `calloc` and
`free` of host arrays are events too, so a second free shows in the trace
(`Interop.DoubleFree`).

Modules, one per program plus shared vocabulary:

| module | file | models |
|---|---|---|
| `CommandLine`, `Glut` | commandline.dfy | strstr token classification and the device-switch loop of NBody and FFT; GLUT outcomes and banner counters |
| `Interop` | interop.dfy | events, buffer ownership, legal histories, checked-call prefixes, argument loops, handle lifetimes and double frees, `ResourcePool` |
| `MatMulSizing` | matmul_sizing.dfy | Setup's validation and rounding and the work-group sizing, shared by both optimized MatMul files |
| `TrunkMatMul` | trunk_matmul.dfy | trunk/src/optimized/MatMul/MatMul.cpp |
| `InteropMatMul` | interop_matmul.dfy | src/optimized/MatMul/MatMul.cpp |
| `GaussianNoise` | gaussian_noise.dfy | trunk/src/naive/GaussianNoise/GaussianNoise.cpp |
| `NBody` | nbody.dfy | src/naive/NBody/NBody.cpp |
| `FFT` | fft.dfy | src/optimized/FFT/FFT.cpp |
| `NaiveMatMul` | naive_matmul.dfy | trunk/src/naive/MatMul/MatMul.cpp |
| `VecAdd` | vecadd.dfy | src/VecAdd/VecAdd.cpp |

Integer widths are explicit where the programs rely on them: `cl_uint`
products wrap modulo 2^32 (`MatMulSizing.AsU32`), a `cl_uint` stored in a
`cl_int` goes through two's complement (`MatMulSizing.AsI32`), `size_t`
differences wrap modulo 2^64, and C's division truncates toward zero
(`MatMulSizing.CDiv`).

## Behaviour the model pins down as written

These are behaviours of the programs that look unintended. The model keeps
each one and proves it, rather than repairing it.

- Work-group sizing in both optimized MatMul files reports success when the
  local memory is too small, skipping the ladder and the device limits
  (`MatMulSizing.ShortMemorySkipsChecks`).
- The 8/4 ladder can leave a block that no longer divides the global size
  Setup rounded for (`MatMulSizing.LadderCanBreakDivisibility`).
- A negative dimension passes Setup's zero test and is rounded with C's
  truncating division (`MatMulSizing.NegativeDimensionRoundsToZero`).
- In src/optimized/MatMul, a failure after the buffers are acquired returns
  with OpenCL still holding them and the buffers never freed, so the next
  `glDrawArrays` reads buffers OpenGL does not own
  (`InteropMatMul.FailedRunLeavesBuffersHeld`, `InteropMatMul.FailedRunLeaks`).
  Cleanup after a successful frame frees each buffer a second time
  (`InteropMatMul.CleanupFreesTwice`). The local reservation wraps to 0 at
  block size 16384 (`InteropMatMul.LocalBytesWrap`). A failed
  `clCreateFromGLBuffer` is not acted on.
- NBody's copy-mode read-back moves a quarter of the position buffer
  (`NBody.ReadBackIsQuarter`).
- NBody's Cleanup frees `DataInput` and releases both velocity buffers
  without resetting their handles, so the rebuild on resize frees
  `DataInput` again in InitData and releases both velocity buffers again in
  CreateComputeResource (`NBody.RebuildFreesTwice`). The position handles
  are reset and are released once.
- FFT's Cleanup frees `DataReal` and `DataImaginary` without resetting the
  handles, so the rebuild on resize frees both again in InitData
  (`FFT.RebuildFreesTwice`). That rebuild also shrinks the host arrays below
  the size every transfer still uses (`FFT.RebuildShrinksHostArrays`).
- The naive MatMul work-group split divides by zero for a kernel limit of 0
  or strictly between 1 and 32 (`NaiveMatMul.SplitDividesByZero`). Frames
  that are neither animated nor updated still launch the kernel
  (`NaiveMatMul.UngatedFrameDispatches`). After a resize that does not
  rebuild, the read-back can ask for more bytes than the result buffer holds
  (`NaiveMatMul.ReadBackOverrun`). A token such as "cpu-lds" selects the CPU
  and leaves Lds off (`NaiveMatMul.LdsFromOwnToken`).
- GaussianNoise's '+' and '-' keys can push the oscillating factor outside
  [20, 100], after which it runs away (`GaussianNoise.RunsAwayAbove`,
  `GaussianNoise.RunsAwayBelow`).
- In VecAdd, when no screen has an interop device, the probe falls through
  and the CL context is built on the last screen's GL context, which the loop
  has already destroyed (`VecAdd.ExhaustedLeavesDestroyedContext`). The
  device type that setupCL queries and the context path that
  initializeGLAndGetCLContext takes disagree for some device-type strings
  (`VecAdd.PathsDisagree`). The block fallback keeps an oversized block
  whose row alone fits (`VecAdd.FallbackFitsIff`). A `deviceId` of 2^31 or
  more reads as a negative int, so no screen is skipped (`VecAdd.FirstScreen`).

## Model

| member | source | states |
|---|---|---|
| CommandLine.Classify | trunk/src/naive/GaussianNoise/GaussianNoise.cpp:1357-1370 | a token's class is the first switch name it contains as a substring, and it contains none of the names before that one |
| CommandLine.LastDeviceTokenWins | src/naive/NBody/NBody.cpp:1347-1358 | the CPU is chosen exactly when some token is classed "cpu" and no later token is classed "gpu" |
| CommandLine.SeenSomewhere | trunk/src/naive/GaussianNoise/GaussianNoise.cpp:1363-1370 | a flag switch ("-animate", "-output") is on exactly when some token is of its class |
| CommandLine.ParseDevice | src/naive/NBody/NBody.cpp:1346-1358 | the parse loop gives the device of the last token containing "cpu" or "gpu" (first match within a token), GPU by default (the same loop is FFT.cpp lines 1228-1241) |
| Glut.Toggle | trunk/src/naive/GaussianNoise/GaussianNoise.cpp:1314-1321 | the 'i' and 's' toggles give 0 or 1, and 0 exactly when the banner was on |
| Glut.BannerLifetime | trunk/src/naive/GaussianNoise/GaussianNoise.cpp:1207-1217 | a banner raised to 1 shows for 201 frames, counting up, then stays off (also lines 1310-1312) |
| MatMulSizing.AsU32 | trunk/src/optimized/MatMul/MatMul.cpp:790-802 | a `cl_int` read as `cl_uint` is the residue modulo 2^32, unchanged when it fits |
| MatMulSizing.AsI32 | trunk/src/optimized/MatMul/MatMul.cpp:792 | a `cl_uint` stored into a `cl_int` is the two's-complement value congruent to it, unchanged below 2^31 |
| MatMulSizing.CDiv | trunk/src/optimized/MatMul/MatMul.cpp:792 | C's integer division truncates toward zero for either sign (also lines 422-423) |
| MatMulSizing.RoundUpLeast | trunk/src/optimized/MatMul/MatMul.cpp:790-803 | a positive dimension with room to round becomes the least multiple of the step not below it, and a multiple stays as it is |
| MatMulSizing.SetupDims | trunk/src/optimized/MatMul/MatMul.cpp:779-809 | Setup rejects exactly the inputs with a zero dimension, and divides by zero exactly when the step blockSize * 4 wraps to 0 |
| MatMulSizing.SetupRoundsUp | trunk/src/optimized/MatMul/MatMul.cpp:779-809 | positive dimensions with room come out as the least multiples of blockSize * 4 at or above them |
| MatMulSizing.NegativeDimensionRoundsToZero | trunk/src/optimized/MatMul/MatMul.cpp:782-792 | the validation lets a negative dimension through, and -4 with the default block size is rounded to 0 |
| MatMulSizing.Ladder | trunk/src/optimized/MatMul/MatMul.cpp:440-464 | a block within the kernel's limit is kept; otherwise 8 when the limit is at least 64, 4 when it is at least 32, and failure below 32; a chosen block fits the limit |
| MatMulSizing.SizingStatus | trunk/src/optimized/MatMul/MatMul.cpp:415-476 | the sizing reports success exactly when local memory is short or every check passes |
| MatMulSizing.FittedWithinLimits | trunk/src/optimized/MatMul/MatMul.cpp:440-475 | a fitted block respects both work-item limits and the work-group limit, fits the kernel's limit, and is the original block, 8 or 4 |
| MatMulSizing.ShortMemorySkipsChecks | trunk/src/optimized/MatMul/MatMul.cpp:432-438 | a short local memory is reported as success with the block unchanged, even when the block exceeds the kernel's limit |
| MatMulSizing.KeptBlockDividesGlobal | trunk/src/optimized/MatMul/MatMul.cpp:422-425 | when the block survives the sizing, it divides both global sizes that Setup's rounding produced (also lines 790-803) |
| MatMulSizing.LadderCanBreakDivisibility | trunk/src/optimized/MatMul/MatMul.cpp:443-453 | when the ladder shrinks the block from 6 to 4, the global size 24/4 = 6 set up for block 6 is not a multiple of 4 (also lines 790-803) |
| TrunkMatMul.MatrixMultiplication.constructor | trunk/src/optimized/MatMul/MatMul.hpp:136-150 | the object starts with the n, m, k, block size, iterations and Lds flag |
| TrunkMatMul.MatrixMultiplication.Setup | trunk/src/optimized/MatMul/MatMul.cpp:779-818 | a zero dimension fails with nothing changed; a zero step crashes; otherwise n, m, k are rounded as SetupDims and the matrix shapes follow |
| TrunkMatMul.MatrixMultiplication.SetWorkGroupSize | trunk/src/optimized/MatMul/MatMul.cpp:415-476 | status and new block size as SizingStatus and BlockAfter; the NDRange follows the shapes; the memory figures are recorded once the kernel query succeeds |
| TrunkMatMul.MatrixMultiplication.Run | trunk/src/optimized/MatMul/MatMul.cpp:821-853 | two warm-up launches unless iterations is 1, then the timed ones; success exactly when every planned launch succeeds; a failed warm-up gives SDK_FAILURE and a failed timed launch its own status |
| TrunkMatMul.MatrixMultiplication.KeyboardFunc | trunk/src/optimized/MatMul/MatMul.cpp:1012-1036 | Escape, 'q' and 'Q' exit with 1 when the cleanup fails and 0 otherwise; every other key is ignored |
| GaussianNoise.Oscillate | trunk/src/naive/GaussianNoise/GaussianNoise.cpp:1249-1256 | one animated frame keeps the factor and step inside the band [20, 100] with steps of ±2, and moves the factor by exactly 2 |
| GaussianNoise.StaysInBand | trunk/src/naive/GaussianNoise/GaussianNoise.cpp:1249-1256 | any number of animated frames started inside the band stays inside it |
| GaussianNoise.RunsAwayAbove | trunk/src/naive/GaussianNoise/GaussianNoise.cpp:1249-1256 | once '+' has pushed the factor above 100 while rising, n frames add exactly 2n and the step never turns (also lines 1322-1325) |
| GaussianNoise.RunsAwayBelow | trunk/src/naive/GaussianNoise/GaussianNoise.cpp:1249-1256 | below 20 while falling, n frames subtract exactly 2n (also lines 1326-1329) |
| GaussianNoise.BlockFor | trunk/src/naive/GaussianNoise/GaussianNoise.cpp:1057-1064 | the block is a row of GROUP_SIZE items, or of the kernel's limit when that is smaller; it never exceeds the limit |
| GaussianNoise.Wrap | trunk/src/naive/GaussianNoise/GaussianNoise.cpp:602 | an unsigned int result lies in [0, 2^32) and equals the value when it fits |
| GaussianNoise.LaunchStatus | trunk/src/naive/GaussianNoise/GaussianNoise.cpp:456-468 | the launch succeeds exactly when every argument call of a gated frame and the enqueue succeed; otherwise it is -10 or the enqueue's error (also lines 520-530) |
| GaussianNoise.RecomputeStatus | trunk/src/naive/GaussianNoise/GaussianNoise.cpp:421-605 | Recompute with a live kernel returns 0 exactly when every fallible call succeeds, else EXIT_FAILURE, -10 or the enqueue's error |
| GaussianNoise.CallsFollowPlan | trunk/src/naive/GaussianNoise/GaussianNoise.cpp:421-605 | when every call succeeds, the calls made are exactly the planned frame |
| GaussianNoise.SharedRecomputeBalanced | trunk/src/naive/GaussianNoise/GaussianNoise.cpp:430-438 | in shared mode a successful frame is a legal hand-off that acquires and releases the output image once each and leaves every owner as it was (also lines 579-588) |
| GaussianNoise.ParseArgs | trunk/src/naive/GaussianNoise/GaussianNoise.cpp:1349-1371 | the parse loop over argv gives the switches of the first-match classification: last device token wins, "-animate" and "-output" are sticky |
| GaussianNoise.Controller.constructor | trunk/src/naive/GaussianNoise/GaussianNoise.cpp:46-116 | the statics start with the factor at FACTOR (60) rising by 2, inside the band, Update set, both banners up and no kernel |
| GaussianNoise.Controller.Initialize | trunk/src/naive/GaussianNoise/GaussianNoise.cpp:1146-1191 | an internal failure exits with its code; missing image support returns CL_IMAGE_FORMAT_NOT_SUPPORTED with nothing built; otherwise the kernel is live with the clamped block |
| GaussianNoise.Controller.Start | trunk/src/naive/GaussianNoise/GaussianNoise.cpp:1345-1399 | main parses the switches, exits with -1 when the bitmap cannot be read, takes the window and texture size from it, and returns 0 without the event loop when Initialize reports missing image support; an abort exits with its code; on success the kernel is live with the device's block limit and the clamped block |
| GaussianNoise.Controller.Recompute | trunk/src/naive/GaussianNoise/GaussianNoise.cpp:421-605 | the status and calls are those of the frame functions; a success leaves every shared object with GL and counts the dispatch modulo 2^32; Update is cleared once the arguments are reached |
| GaussianNoise.Controller.Frame | trunk/src/naive/GaussianNoise/GaussianNoise.cpp:430-604 | the part of Recompute past the kernel check, with the same status, calls and counter |
| GaussianNoise.Controller.Launch | trunk/src/naive/GaussianNoise/GaussianNoise.cpp:450-530 | arguments set only for a gated frame (clearing Update), status and calls as LaunchStatus and LaunchCalls, ownership unchanged |
| GaussianNoise.Controller.TakeOutput | trunk/src/naive/GaussianNoise/GaussianNoise.cpp:430-438 | in shared mode the output image goes to the compute side exactly when the acquire succeeds; copy mode does nothing |
| GaussianNoise.Controller.GiveOutput | trunk/src/naive/GaussianNoise/GaussianNoise.cpp:579-597 | the output image returns to GL (shared) or is read back (copy) exactly when that call succeeds |
| GaussianNoise.Controller.Display | trunk/src/naive/GaussianNoise/GaussianNoise.cpp:1244-1276 | the oscillator steps only while animated; a failed Recompute exits with 1; otherwise the texture is drawn and the banner counted; the NDRange counter wraps forward once per successful dispatch and Update is cleared once the output is fetched |
| GaussianNoise.Controller.Animate | trunk/src/naive/GaussianNoise/GaussianNoise.cpp:1249-1256 | the factor and step move as Oscillate when animated and stay otherwise |
| GaussianNoise.Controller.ReportInfo | trunk/src/naive/GaussianNoise/GaussianNoise.cpp:1207-1217 | the info counter moves as NextInfo: up by one while shown, back to 0 after 200 |
| GaussianNoise.Controller.Keyboard | trunk/src/naive/GaussianNoise/GaussianNoise.cpp:1301-1338 | Escape exits 0; space toggles animation and raises the banner; 'i'/'s' toggle banners; '+'/'-' move the factor by 2 unclamped; every other key sets Update |
| GaussianNoise.Controller.Reshape | trunk/src/naive/GaussianNoise/GaussianNoise.cpp:1278-1299 | only a window more than twice as wide or high rebuilds the compute side for the new size (a failed rebuild shuts down); the new size is kept in every case |
| GaussianNoise.Controller.Cleanup | trunk/src/naive/GaussianNoise/GaussianNoise.cpp:1073-1090 | every compute object is released, the kernel is gone and GL keeps what it held |
| NBody.RoundCount | src/naive/NBody/NBody.cpp:279-284 | the particle count becomes a positive multiple of GroupSize: GroupSize when it was smaller, otherwise the largest multiple not above it |
| NBody.RoundCountGreatest | src/naive/NBody/NBody.cpp:279-284 | no multiple of GroupSize up to the raised count is larger than the rounded count |
| NBody.RoundCountStable | src/naive/NBody/NBody.cpp:279-284 | rounding a rounded count changes nothing, so a rebuild after Reshape keeps the count |
| NBody.WorkGroupFor | src/naive/NBody/NBody.cpp:1046 | a limit above 1 gives the quotient by WorkGroupItems (32); a limit of 0 or 1 is kept |
| NBody.Other | src/naive/NBody/NBody.cpp:404-405 | the next buffer of a current buffer 0 or 1 is the other one (also line 576) |
| NBody.Alternates | src/naive/NBody/NBody.cpp:576 | after k completed frames the current buffer is k mod 2 |
| NBody.ReadsApartFromWrites | src/naive/NBody/NBody.cpp:482-485 | the kernel never reads a buffer it writes: arguments 0 and 1 name the current pair, 5 and 6 the other |
| NBody.ReadBackIsQuarter | src/naive/NBody/NBody.cpp:558 | the copy-mode read-back asks for a quarter of the position buffer's bytes (also line 644) |
| NBody.LaunchStatus | src/naive/NBody/NBody.cpp:480-506 | the launch succeeds exactly when all four argument calls and the enqueue do; otherwise -10 or the enqueue's error |
| NBody.FrameStatus | src/naive/NBody/NBody.cpp:397-579 | a frame returns 0 exactly when the hand-over, the arguments, the enqueue and the hand-back all succeed; otherwise EXIT_FAILURE, -10 or the enqueue's error |
| NBody.FrameFollowsPlan | src/naive/NBody/NBody.cpp:397-579 | a successful frame makes exactly the planned calls |
| NBody.SharedFrameBalanced | src/naive/NBody/NBody.cpp:413-428 | in shared mode a frame after the first is a legal hand-off that acquires and releases both position buffers once each and leaves every owner as it was (also lines 540-555) |
| NBody.CopyWritesOnlyFirst | src/naive/NBody/NBody.cpp:459-476 | in copy mode only the first dispatch uploads the input; later frames write nothing |
| NBody.RebuildFreesTwice | src/naive/NBody/NBody.cpp:1092-1113 | rebuilding a sample whose handles are all live frees DataInput a second time and releases both velocity buffers a second time, while each position buffer is released once and made again (also lines 286-287 and 594-692) |
| NBody.RebuildOfBuilt | src/naive/NBody/NBody.cpp:1298-1304 | the rebuild of a built sample is, call by call, the teardown, the releases of the four buffers, two frees of DataInput, its allocation, argument 2, the two position buffers made, and each velocity buffer released and made |
| NBody.RebuildFreesDataTwice | src/naive/NBody/NBody.cpp:1111-1112 | in that rebuild DataInput is freed by Cleanup and freed again by InitData with no allocation between (also lines 286-287) |
| NBody.RebuildReleasesVelocityTwice | src/naive/NBody/NBody.cpp:1100-1101 | in that rebuild each velocity buffer is released by Cleanup and released again by CreateComputeResource before it is made again (also lines 667-669 and 681-683) |
| NBody.RebuildReleasesPositionOnce | src/naive/NBody/NBody.cpp:1098-1108 | in that rebuild each position buffer is released once, by Cleanup, which nulls its handle, and then made again without a second release |
| NBody.Controller.constructor | src/naive/NBody/NBody.cpp:93-128 | the statics: a 512 x 512 window, 1024 particles and bodies, buffer 0, no dispatch yet, Update set, both banners up, every buffer handle and DataInput null |
| NBody.Controller.Initialize | src/naive/NBody/NBody.cpp:1151-1204 | every failure exits with its code, and one in SetupGraphics or SetupComputeDevices leaves the counts, DataInput and the calls untouched; otherwise the counts are rounded, DataInput is remade, the work group is clamped to the device limit, argument 2 is set to the body count and the four buffers are remade, leaving every handle live |
| NBody.Controller.InitData | src/naive/NBody/NBody.cpp:277-300 | the count is rounded to whole groups and DataInput is freed when non-null, then allocated, leaving its handle live |
| NBody.Controller.CreateComputeResource | src/naive/NBody/NBody.cpp:585-718 | each of the two position and two velocity buffers is released when its handle is non-null and made again, leaving all four handles live |
| NBody.Controller.Renew | src/naive/NBody/NBody.cpp:667-678 | one buffer: released only through a non-null handle, then made again into its slot, with no other slot changed |
| NBody.Controller.Start | src/naive/NBody/NBody.cpp:1342-1380 | main parses the device switch and runs Initialize, with its rounded counts, clamped work group and calls on success |
| NBody.Controller.Recompute | src/naive/NBody/NBody.cpp:397-579 | status and calls as the frame functions; success leaves the buffers with GL and flips the current buffer; the dispatch is counted once enqueued; Update is cleared once the hand-over succeeds |
| NBody.Controller.Frame | src/naive/NBody/NBody.cpp:407-570 | the frame with a live kernel, with the same status, calls and counter |
| NBody.Controller.TakeBuffers | src/naive/NBody/NBody.cpp:409-476 | shared mode acquires both position buffers; copy mode writes both on the first dispatch only; ok exactly when those calls succeed |
| NBody.Controller.Launch | src/naive/NBody/NBody.cpp:480-508 | the four arguments and the enqueue, status as LaunchStatus, the counter raised on success, ownership unchanged |
| NBody.Controller.GiveBuffers | src/naive/NBody/NBody.cpp:538-566 | shared mode releases both buffers, copy mode reads the next one back; ok exactly when those calls succeed |
| NBody.Controller.Display | src/naive/NBody/NBody.cpp:1256-1285 | Recompute runs only when animated or Update; its failure exits with 1; otherwise both buffers are drawn and the banner counted; the current buffer flips after a successful gated frame, the dispatch count grows when the kernel is enqueued, and Update is cleared once the buffers are fetched |
| NBody.Controller.Paint | src/naive/NBody/NBody.cpp:1276-1277 | the draw of both vertex buffers and the info counter step |
| NBody.Controller.ReportInfo | src/naive/NBody/NBody.cpp:1220-1230 | the info counter moves as NextInfo |
| NBody.Controller.Keyboard | src/naive/NBody/NBody.cpp:1311-1334 | Escape exits 0; space toggles animation and raises the banner; 'i'/'s' toggle their banner and no other key touches it; every other key sets Update |
| NBody.Controller.Reshape | src/naive/NBody/NBody.cpp:1288-1309 | a window more than twice as large rebuilds the compute side with Cleanup's and Initialize's calls, the rounded counts and the clamped work group (a failed rebuild exits); from a built sample that rebuild frees DataInput and releases both velocity buffers twice; a smaller window leaves counts, work group, handles and calls as they were; the new size is kept in every case |
| NBody.Controller.Rebuild | src/naive/NBody/NBody.cpp:1298-1304 | Cleanup then Initialize: the calls of the two in order, the work group clamped to the new limit, and from a built sample a second free of DataInput and a second release of each velocity buffer |
| NBody.Controller.Cleanup | src/naive/NBody/NBody.cpp:1092-1113 | the teardown, each buffer released and DataInput freed through its handle; the kernel is gone, the position handles are nulled, and the velocity handles and DataInput keep what was released |
| NBody.Controller.ReleaseAll | src/naive/NBody/NBody.cpp:1094-1112 | the calls of Cleanup, in source order, each release or free made only through a non-null handle |
| FFT.Vertices | src/optimized/FFT/FFT.cpp:342-396 | the two vertex buffers are distinct, and both are the compute buffers exactly in shared mode |
| FFT.Launched | src/optimized/FFT/FFT.cpp:491-503 | the dispatch covers DataElemCount items in groups of 64, i.e. 256 whole groups, over the GL-shared buffers |
| FFT.LaunchStatus | src/optimized/FFT/FFT.cpp:483-508 | the launch succeeds exactly when every argument call and the enqueue do; otherwise -10 or the enqueue's error |
| FFT.FrameStatus | src/optimized/FFT/FFT.cpp:398-581 | a frame returns 0 exactly when hand-over, arguments, enqueue and hand-back all succeed; otherwise EXIT_FAILURE, -10 or the enqueue's error |
| FFT.FrameFollowsPlan | src/optimized/FFT/FFT.cpp:398-581 | a successful frame makes exactly the planned calls |
| FFT.SharedFrameBalanced | src/optimized/FFT/FFT.cpp:420-434 | in shared mode a frame is a legal hand-off acquiring and releasing the real and the imaginary buffer once each, leaving every owner as it was (also lines 540-555) |
| FFT.CopyFrameRoundTrip | src/optimized/FFT/FFT.cpp:462-572 | in copy mode both arrays are written before the dispatch and both read back after it, with nothing read or dispatched before the writes |
| FFT.ArgFailureStopsDispatch | src/optimized/FFT/FFT.cpp:483-489 | a failed argument call returns -10 and the kernel is never enqueued |
| FFT.RebuildFreesTwice | src/optimized/FFT/FFT.cpp:969-988 | rebuilding a sample whose host arrays are live frees DataReal and DataImaginary a second time, because Cleanup frees them without resetting the handles (also lines 287-295) |
| FFT.RebuildOfBuilt | src/optimized/FFT/FFT.cpp:1180-1187 | the rebuild of a built sample is, call by call, the teardown, both host arrays freed, each freed again and allocated, glFinish and clFlush |
| FFT.RebuildFreesRealTwice | src/optimized/FFT/FFT.cpp:986 | in that rebuild DataReal is freed by Cleanup and again by InitData with no allocation between (also lines 289-290) |
| FFT.RebuildFreesImaginaryTwice | src/optimized/FFT/FFT.cpp:987 | in that rebuild DataImaginary is freed by Cleanup and again by InitData with no allocation between (also lines 293-294) |
| FFT.RebuildShrinksHostArrays | src/optimized/FFT/FFT.cpp:287-298 | a rebuild for a 300 x 10 window makes host arrays smaller than the DataElemCount elements every transfer still moves (also lines 1180-1187) |
| FFT.Controller.constructor | src/optimized/FFT/FFT.cpp:90-116 | the statics: a 128 x 128 window, Update set, no dispatch yet, both banners up, both host handles null |
| FFT.Controller.Initialize | src/optimized/FFT/FFT.cpp:1028-1085 | every failure exits with its code, and one before InitData leaves the host arrays and the calls untouched; otherwise host arrays of Width x Height elements remade by InitData, glFinish before the kernel, a live kernel and a final clFlush |
| FFT.Controller.InitData | src/optimized/FFT/FFT.cpp:286-298 | each host array is freed when non-null, then allocated at Width x Height elements, leaving both handles live |
| FFT.Controller.Start | src/optimized/FFT/FFT.cpp:1224-1262 | main parses the device switch and runs Initialize, with its host arrays of Width x Height elements and calls on success |
| FFT.Controller.Recompute | src/optimized/FFT/FFT.cpp:398-581 | status and calls as the frame functions; success leaves both buffers with GL; the dispatch is counted once enqueued; Update is cleared once the hand-over succeeds |
| FFT.Controller.Frame | src/optimized/FFT/FFT.cpp:414-575 | the frame with a live kernel, with the same status, calls and counter |
| FFT.Controller.TakeBuffers | src/optimized/FFT/FFT.cpp:420-480 | shared mode acquires both buffers, copy mode writes both; ok exactly when those calls succeed |
| FFT.Controller.Launch | src/optimized/FFT/FFT.cpp:483-510 | the arguments and the enqueue, status as LaunchStatus, the counter raised on success, ownership unchanged |
| FFT.Controller.GiveBuffers | src/optimized/FFT/FFT.cpp:540-572 | shared mode releases both buffers, copy mode reads both back; ok exactly when those calls succeed |
| FFT.Controller.Touch | src/optimized/FFT/FFT.cpp:310-339 | UpdateVBOs touches both vertex buffers from the GL side without changing ownership |
| FFT.Controller.Display | src/optimized/FFT/FFT.cpp:1137-1167 | the vertex buffers are refreshed while animated, Recompute runs every frame and its failure exits with 1; otherwise the points are drawn and the banner counted; the dispatch count grows when the kernel is enqueued and Update is cleared once the buffers are fetched |
| FFT.Controller.ReportInfo | src/optimized/FFT/FFT.cpp:1101-1111 | the info counter moves as NextInfo |
| FFT.Controller.Keyboard | src/optimized/FFT/FFT.cpp:1193-1216 | Escape exits 0; space toggles animation and raises the banner; 'i'/'s' toggle their banner and no other key touches it; every other key sets Update |
| FFT.Controller.Reshape | src/optimized/FFT/FFT.cpp:1170-1191 | a window more than twice as large rebuilds with Cleanup's and Initialize's calls and host arrays of the new size (a failed rebuild exits); from a built sample that rebuild frees both host arrays twice; a smaller window leaves the arrays and calls as they were; the new size is kept in every case |
| FFT.Controller.Rebuild | src/optimized/FFT/FFT.cpp:1180-1187 | Cleanup then Initialize: the calls of the two in order, and from a built sample a second free of each host array |
| FFT.Controller.Cleanup | src/optimized/FFT/FFT.cpp:969-988 | the teardown and both host arrays freed through their handles; the kernel is gone and the host handles keep what was freed |
| InteropMatMul.Launched | src/optimized/MatMul/MatMul.cpp:754-764 | the launch is two-dimensional, with a blockSize x blockSize work-group, and uses all three shared buffers |
| InteropMatMul.ThreeObjects | src/optimized/MatMul/MatMul.cpp:655-697 | the acquisitions visit inputBuffer0, inputBuffer1 and outputBuffer in that order, each followed by a flush and a wait, and the releases do the same |
| InteropMatMul.PlanLengths | src/optimized/MatMul/MatMul.cpp:655-827 | a full run makes nine acquisition calls, eight argument and launch calls and nine release calls |
| InteropMatMul.PhaseIsUpTo | src/optimized/MatMul/MatMul.cpp:655-697 | the hand-off calls made are the planned ones up to and including the first that fails, and the phase succeeds exactly when none fails |
| InteropMatMul.ArgsIsUpTo | src/optimized/MatMul/MatMul.cpp:704-749 | the argument calls made are the five planned ones up to the first failure, and all five succeed exactly when none fails |
| InteropMatMul.ComputeIsUpTo | src/optimized/MatMul/MatMul.cpp:704-772 | the argument, launch, flush and wait calls made are the plan up to its first failure |
| InteropMatMul.HeldIsUpTo | src/optimized/MatMul/MatMul.cpp:655-772 | acquiring and then computing makes the combined plan's calls up to its first failure |
| InteropMatMul.TransferIsUpTo | src/optimized/MatMul/MatMul.cpp:655-830 | everything from the first acquisition to the last release is the plan up to its first failure |
| InteropMatMul.RunStopsEarly | src/optimized/MatMul/MatMul.cpp:646-835 | when a call between the first acquisition and the last wait fails, clKernelRun fails after the creations and the plan up to that call, and never frees the buffers |
| InteropMatMul.RunFinishes | src/optimized/MatMul/MatMul.cpp:646-835 | when every checked call succeeds, clKernelRun succeeds after the creations, the whole plan and the frees up to the first failing free |
| InteropMatMul.RunFollowsPlan | src/optimized/MatMul/MatMul.cpp:646-835 | with every call succeeding, a run is exactly create, acquire, compute, release, free |
| InteropMatMul.NetConcat | src/optimized/MatMul/MatMul.cpp:486-531 | the buffers a run leaves made add up over the parts of the run |
| InteropMatMul.NoBuffers | src/optimized/MatMul/MatMul.cpp:655-830 | calls that neither create nor free leave the number of buffers made from each GL buffer unchanged |
| InteropMatMul.RunMakesNoBuffers | src/optimized/MatMul/MatMul.cpp:655-830 | acquiring, computing and releasing makes and frees no buffer |
| InteropMatMul.CreateFreeCount | src/optimized/MatMul/MatMul.cpp:486-531 | clPrepareBuffer makes one buffer from each of the three GL buffers and clFreeBuffer releases one of each, and nothing else |
| InteropMatMul.SuccessfulRunFreesAll | src/optimized/MatMul/MatMul.cpp:646-835 | a run in which every call succeeds leaves no buffer made |
| InteropMatMul.WorkQuiet | src/optimized/MatMul/MatMul.cpp:704-772 | setting arguments and launching does not change who holds a buffer, and only uses buffers CL holds |
| InteropMatMul.SuccessfulRunBalanced | src/optimized/MatMul/MatMul.cpp:646-835 | a successful run is a legal sequence of hand-offs that gives every buffer back to GL |
| InteropMatMul.SuccessfulRunOrder | src/optimized/MatMul/MatMul.cpp:655-827 | a successful run acquires and releases the buffers in the order inputBuffer0, inputBuffer1, outputBuffer |
| InteropMatMul.FailedRunCalls | src/optimized/MatMul/MatMul.cpp:704-772 | when the creations and acquisitions succeed but an argument, the launch or its wait fails, the run fails after a prefix of the compute plan |
| InteropMatMul.CreateThenAcquire | src/optimized/MatMul/MatMul.cpp:486-697 | creating and acquiring is legal and leaves every buffer with CL |
| InteropMatMul.HoldingAll | src/optimized/MatMul/MatMul.cpp:655-697 | after the acquisitions CL holds every shared object and GL may not draw from them |
| InteropMatMul.FailedRunLeavesBuffersHeld | src/optimized/MatMul/MatMul.cpp:704-772 | a failure after the acquisitions returns with CL still holding every buffer, so the next glDrawArrays would read a buffer GL does not own |
| InteropMatMul.CreatedStay | src/optimized/MatMul/MatMul.cpp:486-514 | once created, a buffer stays made through any calls that neither create nor free |
| InteropMatMul.FailedRunLeaks | src/optimized/MatMul/MatMul.cpp:646-835 | a run that fails after the acquisitions leaves all three buffers made and never freed |
| InteropMatMul.CleanupFreesTwice | src/optimized/MatMul/MatMul.cpp:989-1001 | Cleanup after a successful frame releases each buffer once more than was made |
| InteropMatMul.LocalBytesWrap | src/optimized/MatMul/MatMul.cpp:736-743 | the local reservation is 64 * blockSize^2 bytes below blockSize 16384 and wraps to 0 at 16384 |
| InteropMatMul.MatrixMultiplication.constructor | src/optimized/MatMul/MatMul.cpp:1115-1125 | the object starts from the parsed n, m, k, blockSize and lds, every shared object with GL |
| InteropMatMul.MatrixMultiplication.Setup | src/optimized/MatMul/MatMul.cpp:925-960 | a zero dimension fails and keeps the dimensions; a block size whose step wraps to 0 divides by zero; otherwise the dimensions are rounded up and the shapes set |
| InteropMatMul.MatrixMultiplication.ClSetWorkGroupSize | src/optimized/MatMul/MatMul.cpp:581-641 | the status, block size and recorded local memory are those of the sizing function, with the NDRange set from the shapes |
| InteropMatMul.MatrixMultiplication.Checked3 | src/optimized/MatMul/MatMul.cpp:655-697 | three checked calls are made up to the first failure, which is reported |
| InteropMatMul.MatrixMultiplication.Checked2 | src/optimized/MatMul/MatMul.cpp:728-749 | two checked calls are made up to the first failure, which is reported |
| InteropMatMul.MatrixMultiplication.PrepareBuffer | src/optimized/MatMul/MatMul.cpp:486-514 | clPrepareBuffer makes the three creations up to the first failure and reports it |
| InteropMatMul.MatrixMultiplication.FreeBuffer | src/optimized/MatMul/MatMul.cpp:518-531 | clFreeBuffer makes the three frees up to the first failure and reports it |
| InteropMatMul.MatrixMultiplication.HandOver | src/optimized/MatMul/MatMul.cpp:655-827 | a direction's hand-offs are made up to the first failure; when all succeed, CL holds everything after acquiring and GL after releasing |
| InteropMatMul.MatrixMultiplication.SetArguments | src/optimized/MatMul/MatMul.cpp:704-749 | the argument calls are made up to the first failure, with the local reservation or width1 as argument 4 |
| InteropMatMul.MatrixMultiplication.Compute | src/optimized/MatMul/MatMul.cpp:704-772 | the compute calls are made up to the first failure without changing who holds a buffer |
| InteropMatMul.MatrixMultiplication.Hold | src/optimized/MatMul/MatMul.cpp:655-772 | acquiring then computing; when both succeed CL holds every buffer |
| InteropMatMul.MatrixMultiplication.Transfer | src/optimized/MatMul/MatMul.cpp:655-830 | acquire, compute, release; when all succeed GL holds every buffer again |
| InteropMatMul.MatrixMultiplication.Run | src/optimized/MatMul/MatMul.cpp:652-835 | the calls and status of clKernelRun once sized; a successful run gives every buffer back to GL |
| InteropMatMul.MatrixMultiplication.KernelRun | src/optimized/MatMul/MatMul.cpp:646-835 | a failed sizing makes no CL call and fails; otherwise the run's calls and status |
| InteropMatMul.MatrixMultiplication.SetupInput | src/optimized/MatMul/MatMul.cpp:308-333 | glSetupInput writes the two input vertex buffers while GL holds them |
| InteropMatMul.MatrixMultiplication.Draw | src/optimized/MatMul/MatMul.cpp:1080 | glDrawArrays reads all three vertex buffers, which is legal exactly when GL holds them all |
| InteropMatMul.MatrixMultiplication.DisplayFunc | src/optimized/MatMul/MatMul.cpp:1055-1087 | a frame refreshes the inputs unless first_run, runs the kernel over the rounded global size in square blocks and draws; a successful run always lets the draw go ahead |
| InteropMatMul.MatrixMultiplication.Cleanup | src/optimized/MatMul/MatMul.cpp:989-1001 | Cleanup frees the three buffers again and reports success whatever the frees return |
| InteropMatMul.MatrixMultiplication.KeyboardFunc | src/optimized/MatMul/MatMul.cpp:1090-1110 | Escape, 'q' and 'Q' clean up and exit with 0; every other key changes nothing |
| NaiveMatMul.ReadBackOverrun | trunk/src/naive/MatMul/MatMul.cpp:432-437 | resizing the 512 x 512 window to 600 x 600 does not rebuild the result buffer, and the read-back then asks for more bytes than the buffer holds |
| NaiveMatMul.ReadBackFits | trunk/src/naive/MatMul/MatMul.cpp:432-437 | the read-back fits in the result buffer exactly when the window has no more pixels than the texture it was sized for |
| NaiveMatMul.SplitDividesByZero | trunk/src/naive/MatMul/MatMul.cpp:801-802 | the work-group split divides by zero exactly when the kernel's limit is 0 or lies strictly between 1 and WorkGroupItems |
| NaiveMatMul.SplitWithinLimit | trunk/src/naive/MatMul/MatMul.cpp:801-802 | otherwise the split's two sizes multiply to at most the limit, a limit of 1 gives 1 x 1, and a larger limit gives a second size between WorkGroupItems and twice that |
| NaiveMatMul.SplitUnwrapped | trunk/src/naive/MatMul/MatMul.cpp:801-802 | when the quotients fit in an int, the split is the plain quotient and the limit divided by it |
| NaiveMatMul.ArgTable | trunk/src/naive/MatMul/MatMul.cpp:351-367 | the kernel gets five arguments, numbered 0 to 4, the last being a null local reservation exactly when Lds is on |
| NaiveMatMul.Launched | trunk/src/naive/MatMul/MatMul.cpp:384-396 | the launch is two-dimensional with positive local sizes that divide the global ones |
| NaiveMatMul.LaunchStatus | trunk/src/naive/MatMul/MatMul.cpp:369-401 | the launch succeeds exactly when the enqueue succeeds and, on an updated frame, every argument call does; a failed argument gives -10, a failed enqueue its own code |
| NaiveMatMul.RecomputeStatus | trunk/src/naive/MatMul/MatMul.cpp:339-442 | Recompute returns 0 exactly when the launch and the image hand-off or read-back succeed, and otherwise 1, -10 or the enqueue's code |
| NaiveMatMul.CallsFollowPlan | trunk/src/naive/MatMul/MatMul.cpp:339-442 | when nothing fails, a frame makes exactly the planned calls |
| NaiveMatMul.UngatedFrameDispatches | trunk/src/naive/MatMul/MatMul.cpp:369-401 | a frame that is neither animated nor updated still launches the kernel, without uploading inputs or setting arguments |
| NaiveMatMul.SharedRecomputeBalanced | trunk/src/naive/MatMul/MatMul.cpp:403-428 | with GL attachments a frame is a legal hand-off that acquires and releases the image once and gives it back to GL |
| NaiveMatMul.ParseArgs | trunk/src/naive/MatMul/MatMul.cpp:1069-1083 | the loop over the arguments gives the same switches as the declarative reading of them |
| NaiveMatMul.LdsFromOwnToken | trunk/src/naive/MatMul/MatMul.cpp:1075-1082 | Lds is turned on exactly when some argument contains "lds" and neither "cpu" nor "gpu" |
| NaiveMatMul.Controller.constructor | trunk/src/naive/MatMul/MatMul.cpp:41-76 | the statics start with a 512 x 512 window and texture, animation off, an update pending, Lds off and both banners on |
| NaiveMatMul.Controller.SetupKernel | trunk/src/naive/MatMul/MatMul.cpp:770-802 | the kernel is chosen by Lds, and the process divides by zero exactly when the split does; otherwise the work-group size is the split |
| NaiveMatMul.Controller.Initialize | trunk/src/naive/MatMul/MatMul.cpp:877-925 | an abort exits with its code, a device without images returns the image error without building the kernel, and otherwise the kernel is set up as SetupKernel says |
| NaiveMatMul.Controller.Start | trunk/src/naive/MatMul/MatMul.cpp:1064-1104 | the switches are parsed, the texture takes the window size, a device without images ends the program with 0, and otherwise the kernel is chosen by Lds and the work group split from the device limit (or the process dies dividing by zero) |
| NaiveMatMul.Controller.Recompute | trunk/src/naive/MatMul/MatMul.cpp:339-442 | a frame before the compute resources exist does nothing; otherwise its status and calls are those of the frame functions, and the update flag clears |
| NaiveMatMul.Controller.Launch | trunk/src/naive/MatMul/MatMul.cpp:369-401 | the upload and arguments on a gated frame, then the launch, with the status LaunchStatus gives |
| NaiveMatMul.Controller.Prepare | trunk/src/naive/MatMul/MatMul.cpp:369-382 | a gated frame uploads both inputs and sets every argument, failing exactly when one argument call fails |
| NaiveMatMul.Controller.HandOver | trunk/src/naive/MatMul/MatMul.cpp:403-439 | the image hand-off or the read-back, up to the first failure; when it succeeds GL holds everything again |
| NaiveMatMul.Controller.Display | trunk/src/naive/MatMul/MatMul.cpp:977-1006 | a frame exits with 1 exactly when Recompute fails; otherwise it draws the image and advances the banner |
| NaiveMatMul.Controller.ReportInfo | trunk/src/naive/MatMul/MatMul.cpp:929-962 | the info banner counts on while shown and stops after its last frame |
| NaiveMatMul.Controller.Keyboard | trunk/src/naive/MatMul/MatMul.cpp:1033-1057 | Escape exits with 0; space toggles animation and shows the banner, 'i' and 's' toggle the banners, and every other key only asks for an update |
| NaiveMatMul.Controller.Reshape | trunk/src/naive/MatMul/MatMul.cpp:1010-1030 | the window size is recorded; only a window more than twice as wide or as tall as before rebuilds everything at the new size, with the kernel and work-group split of Initialize, and a rebuild that finds no image support shuts down with 0; a smaller window leaves the texture, split and kernel as they were |
| NaiveMatMul.Controller.Cleanup | trunk/src/naive/MatMul/MatMul.cpp:811-831 | Cleanup releases every compute object and leaves the compute resources gone |
| VecAdd.PathsDisagree | src/VecAdd/VecAdd.cpp:219-292 | the device type setupCL queries and the context path chosen by the device-type string differ exactly when "gpu" is asked for without a GPU, or when the string is neither "gpu" nor "cpu" and a GPU is present |
| VecAdd.FirstScreen | src/VecAdd/VecAdd.cpp:102-110 | the screens skipped are exactly those below the first probed one, which is deviceId when a device id is given and fits an int, and 0 when deviceId read as an int is negative |
| VecAdd.ProbeFrom | src/VecAdd/VecAdd.cpp:102-214 | the probe ends at the first screen whose device query fails or reports a device, or runs off the end when there is none |
| VecAdd.FirstInteropUnique | src/VecAdd/VecAdd.cpp:102-214 | any ending that meets the probe's declarative description is the one the probe reaches |
| VecAdd.ExhaustedLeavesDestroyedContext | src/VecAdd/VecAdd.cpp:102-214 | when no screen qualifies the GL context left current is the last screen's, which has already been destroyed; a found screen keeps its own context alive |
| VecAdd.GlSuccessContext | src/VecAdd/VecAdd.cpp:96-272 | initializeGLAndGetCLContext succeeds exactly when no device query fails, the gpu path finds its device, and the context and GLEW succeed; on success the CL context is tied to the GL context left current |
| VecAdd.Fallback | src/VecAdd/VecAdd.cpp:416-434 | a block that fits the kernel's work-group size is kept, and it changes only when blockSizeX alone exceeds it, becoming kernelWorkGroupSize x 1 |
| VecAdd.FallbackFitsIff | src/VecAdd/VecAdd.cpp:416-434 | after the fallback the block fits exactly when it fitted before or blockSizeX alone was too large, so an oversized block with a small enough row is left oversized |
| VecAdd.FallbackIdempotent | src/VecAdd/VecAdd.cpp:416-434 | a second fallback against the same size changes nothing |
| VecAdd.VecAddSample.constructor | trunk/src/VecAdd/VecAdd.hpp:74-87 | the sample starts with no GL or CL context, no interop device and nothing destroyed, with the parsed device type, device id and block sizes |
| VecAdd.VecAddSample.ProbeScreens | src/VecAdd/VecAdd.cpp:102-214 | the screen loop ends as the probe function says, destroys the contexts of the screens it passed over, and leaves current the context the probe leaves |
| VecAdd.VecAddSample.InitializeGLAndGetCLContext | src/VecAdd/VecAdd.cpp:96-272 | the status, the current GL context, the destroyed contexts, the CL context and the interop device are those the probe and the replies determine |
| VecAdd.VecAddSample.SetupCL | src/VecAdd/VecAdd.cpp:275-436 | setupCL picks the device type, stops at the first failed step, takes the interop device from the context's device list on a CPU, and applies the block fallback only once the kernel exists |
| VecAdd.VecAddSample.RunCLKernels | src/VecAdd/VecAdd.cpp:439-444 | runCLKernels does nothing and reports success |
| Interop.UpTo | src/optimized/MatMul/MatMul.cpp:655-697 | a sequence of checked calls, each returning on failure, makes the planned calls up to and including the first that fails and no further |
| Interop.UpToConcat | src/optimized/MatMul/MatMul.cpp:655-772 | running two stretches of checked calls in a row is the first stretch up to its failure, followed by the second only when the first went through |
| Interop.NoDoubleAcquire | src/optimized/FFT/FFT.cpp:420-434 | in a legal history a shared object is never acquired twice without a release between |
| Interop.NoDoubleRelease | src/optimized/FFT/FFT.cpp:540-555 | in a legal history a shared object is never released twice without an acquisition between |
| Interop.Bracket | src/optimized/MatMul/MatMul.cpp:655-827 | acquiring a list of GL-owned objects, working only on objects CL holds, and releasing them again is legal and gives every object back to GL |
| Interop.BracketOrder | src/optimized/MatMul/MatMul.cpp:655-827 | such a bracket acquires and releases exactly the listed objects, in list order |
| Interop.ResourcePool.HistoryLegal | src/naive/NBody/NBody.cpp:413-428 | every history the pool records is a legal sequence of hand-offs whose replay gives the current owners |
| Interop.SetArgs | trunk/src/naive/MatMul/MatMul.cpp:376-381 | the argument loop makes every call whatever the earlier ones return, records the ones that succeed, and reports failure exactly when one of them failed |
| Interop.ArgCallsAllSet | trunk/src/naive/MatMul/MatMul.cpp:376-381 | when every argument call succeeds, all of them are recorded in table order |
| Interop.ResourcePool.EmitThrough | src/naive/NBody/NBody.cpp:1111-1112 | a free or release through a handle is recorded only when the handle is non-null, and changes no ownership |
| Interop.UntouchedLifetime | src/naive/NBody/NBody.cpp:1092-1113 | calls that neither make nor give back an object leave whether it is held unchanged and never free it twice |
| Interop.HeldConcat | src/naive/NBody/NBody.cpp:1092-1204 | whether an object is held after two runs of calls is decided by the first run, carried into the second |
| Interop.DoubleFreeConcat | src/naive/NBody/NBody.cpp:1092-1204 | two runs of calls free an object twice exactly when the first does or the second does from where the first leaves it |
| Interop.FreedAgain | src/naive/NBody/NBody.cpp:286-287 | giving an object back and giving it back again, with no remaking between, is a double free whatever came before |
| Interop.FreedThenRemade | src/naive/NBody/NBody.cpp:594-601 | from a held object, one release followed by remaking it, with nothing else touching it, is never a double free |
| Interop.LegalConcat | src/optimized/MatMul/MatMul.cpp:655-827 | a history made of two parts is legal exactly when the first is and the second is legal from where the first leaves the owners |

## Left out

- OpenGL, OpenCL, GLX, X11 and GLUT calls are not modelled beyond their effect on the event trace and their status; their semantics belong to the drivers.
- Floating-point code is not modelled: random data, the CPU reference multiplication and its comparison, frame-time and fps statistics, text overlay coordinates and projection parameters.
- `FrameCount`, `TimeElapsed` and the stats string are left out; they only feed the statistics.
- File and bitmap I/O is left out: kernel source loading, bitmap load and write, the flags file, and the `DEBUG_INFO` dumps.
- The compute kernels are not part of this model; a launch is one `Dispatch` event with its NDRange and the buffers it uses.
- Each busy-wait on an event's status is one atomic `Wait` step, because the loop exists only for device concurrency.
- Platform and device enumeration (`SetupComputeDevices`, the vendor loops) is abstracted into the `InitReply` a controller's `Initialize` receives, which carries the kernel's work-group limit or the exit code of a failure (for NBody and FFT also whether the failing step comes after InitData).
- NBody's `InitData` fill loops only write floats; the model keeps their integer part, the rounded particle count (`NBody.RoundCount`).
- `NDRangeCount` in NBody and FFT is a signed `int` whose overflow after 2^31 frames is undefined in C; the model counts without bound. GaussianNoise's counter is unsigned and wraps (`GaussianNoise.Wrap`).
- The AMD SDK command-line parser and `run`'s callee `runCLKernels` in trunk/src/optimized/MatMul are not part of this model: `TrunkMatMul.MatrixMultiplication.constructor` takes the parsed values, and `TrunkMatMul.MatrixMultiplication.Run` takes each launch's status as a parameter.
- The `main` functions are modelled only as far as they parse tokens and start the controller (`Start` in GaussianNoise, NBody, FFT and NaiveMatMul).
- The `atexit(Shutdown)` handler that `main` registers in NBody, FFT, GaussianNoise and the naive MatMul is not modelled. Every `Exit` outcome after the event loop starts (Escape in `Keyboard`, a failed frame in `Display`, a failed rebuild in `Reshape`) would run `Shutdown`, which calls Cleanup once more and then `exit(0)` inside the exit handler; that nested `exit` is undefined in C, and in NBody and FFT the repeated Cleanup frees the host arrays again. The model ends at the `Exit` outcome.
- FFT: the compute buffers `ComputeInputOutputReal` and `ComputeInputOutputImaginary` are released and re-created without a trace event; Cleanup nulls their handles, so they are never released twice. Only the host arrays' lifetimes are traced.
- src/MatMul/MatMul.hpp holds declarations only; the constructor of src/optimized/MatMul takes the parsed values, and `first_run` is a constructor parameter because no visible code assigns it.
- `glInit` and the GL program, vertex-buffer and shader set-up of src/optimized/MatMul are GL calls with no control logic and are left out; the model starts with every shared buffer owned by OpenGL.
- InteropMatMul.MatrixMultiplication.DisplayFunc: once a failed run has left the buffers with OpenCL, the model records that the next draw would touch them (`stalled`) and does not follow the program further.
- NaiveMatMul: the uploads in a gated frame are unchecked calls and are recorded as made; `Width * Height` products are not checked for `int` overflow.
- NaiveMatMul.ArgTable: the `values[]`/`sizes[]` arrays filled through running indices are modelled as the five-entry table they end up holding.
- VecAdd: the types of `blockSizeX` and `blockSizeY` are not visible, so they are modelled as unbounded naturals.
- VecAdd: reading `devices[deviceId]` past the end of the context's device list is modelled as the reference `PastEnd(deviceId)`, not as a read of arbitrary memory.
- VecAdd: the X display, GLX context and GLEW calls are abstracted into a `GlReplies` record; the query of the current context's device is a single reply, not tied to which context is current.
- VecAdd: `genBinaryImage`, `initializeCL`, the program compilation and the random input are not part of this model.
