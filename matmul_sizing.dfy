/** The sizing logic the two optimized MatMul samples share word for word
    (trunk/src/optimized/MatMul/MatMul.cpp and src/optimized/MatMul/MatMul.cpp):
    Setup's validation and rounding of the matrix dimensions, and the
    work-group sizing that runs before every kernel launch. The arithmetic is
    that of the C types involved: `n`, `m`, `k` are 32-bit `cl_int`,
    `blockSize` a 32-bit `cl_uint`, the local-memory sizes 64-bit `cl_ulong`
    and the NDRange sizes 64-bit `size_t`. */
module MatMulSizing {
  import opened CommandLine

  const U32 := 0x1_0000_0000
  const U64 := 0x1_0000_0000_0000_0000
  /** 2^31: the `cl_int` range is [-I32, I32). */
  const I32 := 0x8000_0000

  /** The SDK's status codes. */
  const SdkSuccess := 0
  const SdkFailure := 1

  /** `vectorSize` in Setup: each work item handles four floats. */
  const VectorSize := 4

  /** The constructor's defaults (trunk/src/optimized/MatMul/MatMul.hpp). */
  const DefaultN := 800
  const DefaultM := 800
  const DefaultK := 600
  const DefaultBlockSize := 8

  /** sizeof(cl_float). */
  const FloatSize := 4

  /** A `cl_int` value converted to `cl_uint`. */
  function AsU32(x: int): (u: nat)
    ensures u < U32 && (u - x) % U32 == 0
    ensures 0 <= x < U32 ==> u == x
  {
    x % U32
  }

  /** A `cl_uint` value stored back into a `cl_int` (two's complement). */
  function AsI32(u: nat): (x: int)
    requires u < U32
    ensures -I32 <= x < I32 && (u - x) % U32 == 0
    ensures u < I32 ==> x == u
  {
    if u < I32 then u else u - U32
  }

  /** C division of ints, truncating toward zero. */
  function CDiv(a: int, b: nat): (q: int)
    requires b > 0
    ensures a >= 0 ==> q == a / b
    ensures a < 0 ==> q == -((-a) / b)
  {
    if a >= 0 then a / b else -((-a) / b)
  }

  // ---------------------------------------------------------------------
  // Setup

  /** `blockSize * vectorSize`, computed in `cl_uint`. */
  function Step(blockSize: nat): nat
  {
    (blockSize * VectorSize) % U32
  }

  /** One dimension rounded as Setup does: when the value, read as unsigned,
      is not a multiple of the step, it becomes the next multiple, computed
      in unsigned arithmetic and stored back into the `cl_int`. */
  function RoundUp(x: int, step: nat): int
    requires 0 < step < U32
  {
    var u := AsU32(x);
    if u % step != 0 then AsI32(((u / step + 1) * step) % U32) else x
  }

  /** For a positive dimension whose next multiple still fits a `cl_int`,
      the rounding gives the least multiple of the step at or above it; a
      multiple is left as it is. */
  lemma RoundUpLeast(x: int, step: nat)
    requires 0 < step < U32 && 0 < x && x - 1 + step < I32
    ensures RoundUp(x, step) % step == 0 && x <= RoundUp(x, step) < x + step
    ensures x % step == 0 ==> RoundUp(x, step) == x
  {
    var q, rest := x / step, x % step;
    assert x == q * step + rest;
    if rest != 0 {
      assert (q + 1) * step == q * step + step;
      MulMod(q + 1, step);
    }
  }

  /** The dimensions n, m, k. */
  datatype Dims = Dims(n: int, m: int, k: int)

  /** What Setup comes to: a rejected zero dimension, a division by a zero
      step (a `blockSize` that is 0 modulo 2^30), or the rounded
      dimensions. */
  datatype SetupResult = ZeroDimension | DivisionByZero | Sized(dims: Dims)

  /** Setup's validation and rounding. */
  function SetupDims(d: Dims, blockSize: nat): (res: SetupResult)
    requires blockSize < U32
    ensures res == ZeroDimension <==> d.n == 0 || d.m == 0 || d.k == 0
    ensures res == DivisionByZero <==> d.n != 0 && d.m != 0 && d.k != 0 && Step(blockSize) == 0
  {
    if d.n == 0 || d.m == 0 || d.k == 0 then ZeroDimension
    else if Step(blockSize) == 0 then DivisionByZero
    else Sized(Dims(RoundUp(d.n, Step(blockSize)), RoundUp(d.m, Step(blockSize)), RoundUp(d.k, Step(blockSize))))
  }

  /** Positive dimensions with room to round come out as the least multiples
      of `blockSize * 4` at or above them. */
  lemma SetupRoundsUp(d: Dims, blockSize: nat)
    requires 0 < blockSize && blockSize * VectorSize < U32
    requires 0 < d.n && d.n + blockSize * VectorSize <= I32
    requires 0 < d.m && d.m + blockSize * VectorSize <= I32
    requires 0 < d.k && d.k + blockSize * VectorSize <= I32
    ensures SetupDims(d, blockSize).Sized?
    ensures var s := SetupDims(d, blockSize).dims; var step := blockSize * VectorSize;
            s.n % step == 0 && d.n <= s.n < d.n + step
            && s.m % step == 0 && d.m <= s.m < d.m + step
            && s.k % step == 0 && d.k <= s.k < d.k + step
  {
    var step := blockSize * VectorSize;
    assert Step(blockSize) == step;
    RoundUpLeast(d.n, step);
    RoundUpLeast(d.m, step);
    RoundUpLeast(d.k, step);
  }

  /** The validation rejects only 0: a negative dimension passes it and
      rounds to 0 (-4 with the default block size: 2^32 - 4 read as unsigned
      rounds up to 2^32, which wraps to 0). */
  lemma NegativeDimensionRoundsToZero()
    ensures SetupDims(Dims(-4, DefaultM, DefaultK), DefaultBlockSize).Sized?
    ensures SetupDims(Dims(-4, DefaultM, DefaultK), DefaultBlockSize).dims.n == 0
  {
    assert AsU32(-4) == U32 - 4;
    assert (U32 - 4) / 32 + 1 == U32 / 32;
  }

  // ---------------------------------------------------------------------
  // setWorkGroupSize / clSetWorkGroupSize

  /** What the kernel and device report: whether the kernel work-group query
      succeeds, the device's local memory size, what the kernel uses of it,
      the kernel's work-group limit, the device's per-dimension item limits
      and its work-group limit. */
  datatype Limits = Limits(infoOk: bool, localMemSize: nat, localMemoryUsed: nat, kernelWorkGroupSize: nat,
                           maxWorkItemSizes0: nat, maxWorkItemSizes1: nat, maxWorkGroupSize: nat)

  /** Every reported value fits its 64-bit type. */
  predicate Fits(lim: Limits)
  {
    lim.localMemSize < U64 && lim.localMemoryUsed < U64 && lim.kernelWorkGroupSize < U64
    && lim.maxWorkItemSizes0 < U64 && lim.maxWorkItemSizes1 < U64 && lim.maxWorkGroupSize < U64
  }

  /** availableLocalMemory: the `cl_ulong` difference, which wraps when the
      kernel reports more than the device has. */
  function Available(lim: Limits): nat
  {
    (lim.localMemSize - lim.localMemoryUsed) % U64
  }

  /** neededLocalMemory: `2 * blockSize * blockSize` in `cl_uint`, times
      sizeof(cl_float) in `size_t`. */
  function Needed(blockSize: nat): nat
  {
    (2 * blockSize * blockSize % U32) * FloatSize
  }

  /** The block size the ladder settles on, if any: unchanged while
      blockSize² (as `cl_uint`) is within the kernel limit, else 8 when the
      limit is at least 64, 4 when it is at least 32, none otherwise. */
  function Ladder(blockSize: nat, kernelWorkGroupSize: nat): (b: Option<nat>)
    ensures blockSize * blockSize % U32 <= kernelWorkGroupSize ==> b == Some(blockSize)
    ensures blockSize * blockSize % U32 > kernelWorkGroupSize ==>
              (kernelWorkGroupSize >= 64 ==> b == Some(8))
              && (32 <= kernelWorkGroupSize < 64 ==> b == Some(4))
              && (kernelWorkGroupSize < 32 ==> b == None)
    ensures b.Some? && blockSize * blockSize < U32 ==> b.value * b.value <= kernelWorkGroupSize
  {
    if blockSize * blockSize % U32 > kernelWorkGroupSize then
      (if kernelWorkGroupSize >= 64 then Some(8) else if kernelWorkGroupSize >= 32 then Some(4) else None)
    else Some(blockSize)
  }

  /** Which return of the sizing is taken. */
  datatype Sizing =
    | InfoFailed          // setKernelWorkGroupInfo failed
    | ShortOfLocalMemory  // needed > available: reported, yet a success
    | OutOfResources      // the ladder found no block size
    | Unsupported         // the device cannot run the block
    | Fitted              // success

  function SizingOf(blockSize: nat, lim: Limits): Sizing
  {
    if !lim.infoOk then InfoFailed
    else if Needed(blockSize) > Available(lim) then ShortOfLocalMemory
    else if Ladder(blockSize, lim.kernelWorkGroupSize).None? then OutOfResources
    else
      var b := Ladder(blockSize, lim.kernelWorkGroupSize).value;
      if b > lim.maxWorkItemSizes0 || b > lim.maxWorkItemSizes1 || b * b > lim.maxWorkGroupSize then Unsupported
      else Fitted
  }

  /** The status the sizing returns. */
  function SizingStatus(s: Sizing): (status: int)
    ensures status == SdkSuccess <==> s == ShortOfLocalMemory || s == Fitted
    ensures status == SdkSuccess || status == SdkFailure
  {
    if s == ShortOfLocalMemory || s == Fitted then SdkSuccess else SdkFailure
  }

  /** The block size after the sizing: the ladder's choice once the ladder
      has run, the old one otherwise. */
  function BlockAfter(blockSize: nat, lim: Limits): nat
  {
    match SizingOf(blockSize, lim)
    case Unsupported => Ladder(blockSize, lim.kernelWorkGroupSize).value
    case Fitted => Ladder(blockSize, lim.kernelWorkGroupSize).value
    case _ => blockSize
  }

  /** globalThreads: width1 / 4 and height0 / 4 as `size_t`. */
  function GlobalFor(width1: int, height0: int): (nat, nat)
  {
    (CDiv(width1, VectorSize) % U64, CDiv(height0, VectorSize) % U64)
  }

  /** A fitted launch respects every device and kernel limit: the block fits
      each dimension's item limit and the work-group limit, and, unless
      blockSize² overflows a `cl_uint`, the kernel's own limit. */
  lemma FittedWithinLimits(blockSize: nat, lim: Limits)
    requires SizingOf(blockSize, lim) == Fitted
    ensures var b := BlockAfter(blockSize, lim);
            b <= lim.maxWorkItemSizes0 && b <= lim.maxWorkItemSizes1 && b * b <= lim.maxWorkGroupSize
            && (blockSize * blockSize < U32 ==> b * b <= lim.kernelWorkGroupSize)
            && (b == blockSize || b == 8 || b == 4)
  {
  }

  /** A short local memory is reported and then treated as a success: the
      ladder and the device checks are skipped, so a 16 x 16 block is kept
      although the kernel allows only 32 items. */
  lemma ShortMemorySkipsChecks()
    ensures var lim := Limits(true, 1024, 0, 32, 1024, 1024, 1024);
            SizingOf(16, lim) == ShortOfLocalMemory && SizingStatus(SizingOf(16, lim)) == SdkSuccess
            && BlockAfter(16, lim) == 16 && 16 * 16 > lim.kernelWorkGroupSize
  {
    assert Needed(16) == 2048;
  }

  /** When the block size survives the sizing, the global range set up from
      Setup's dimensions divides into whole blocks. */
  lemma KeptBlockDividesGlobal(d: Dims, blockSize: nat, lim: Limits)
    requires 0 < blockSize && blockSize * VectorSize < U32
    requires 0 < d.n && d.n + blockSize * VectorSize <= I32
    requires 0 < d.m && d.m + blockSize * VectorSize <= I32
    requires 0 < d.k && d.k + blockSize * VectorSize <= I32
    requires SizingOf(blockSize, lim) == Fitted && BlockAfter(blockSize, lim) == blockSize
    ensures var s := SetupDims(d, blockSize).dims; var g := GlobalFor(s.k, s.n);
            g.0 % blockSize == 0 && g.1 % blockSize == 0
  {
    SetupRoundsUp(d, blockSize);
    var s := SetupDims(d, blockSize).dims;
    var step := blockSize * VectorSize;
    DividesQuarter(s.k, blockSize);
    DividesQuarter(s.n, blockSize);
  }

  /** A positive multiple of 4b below 2^64 has a quarter that b divides. */
  lemma DividesQuarter(x: int, b: nat)
    requires 0 < b && 0 < x < U64 && x % (b * VectorSize) == 0
    ensures CDiv(x, VectorSize) % U64 % b == 0
  {
    var q := x / (b * VectorSize);
    assert x == (b * VectorSize) * q + 0;
    assert x == (q * b) * VectorSize;
    MulMod(q * b, VectorSize);
    MulMod(q, b);
  }

  lemma MulAtLeast(d: int, b: int)
    requires d >= 1 && b > 0
    ensures d * b >= b
  {
    assert (d - 1) * b >= 0;
  }

  /** Quotient and remainder are unique. */
  lemma DivModUnique(y: int, b: int, q: int, r: int)
    requires b > 0 && 0 <= r < b && y == q * b + r
    ensures y / b == q && y % b == r
  {
    var q', r' := y / b, y % b;
    assert y == q' * b + r';
    assert (q - q') * b == r' - r;
    if q > q' {
      MulAtLeast(q - q', b);
    } else if q < q' {
      MulAtLeast(q' - q, b);
    }
  }

  lemma MulMod(a: int, b: int)
    requires b > 0
    ensures (a * b) % b == 0 && (a * b) / b == a
  {
    DivModUnique(a * b, b, a, 0);
  }

  /** But when the ladder shrinks the block, the dimensions were rounded for
      the old one: block size 6 with a kernel limit of 32 falls to 4, while
      a width of 24 gives a global size of 6. */
  lemma LadderCanBreakDivisibility()
    ensures var lim := Limits(true, 32768, 0, 32, 1024, 1024, 1024);
            SetupDims(Dims(24, 24, 24), 6) == Sized(Dims(24, 24, 24))
            && SizingOf(6, lim) == Fitted && BlockAfter(6, lim) == 4
            && GlobalFor(24, 24).0 % BlockAfter(6, lim) != 0
  {
    assert Step(6) == 24;
    assert RoundUp(24, 24) == 24;
  }
}
