/** The MatrixMultiplication sample object of trunk/src/optimized/MatMul: its
    Setup, the work-group sizing run before every kernel launch, the run
    loop, and the keyboard callback. */
module TrunkMatMul {
  import opened CommandLine
  import opened Glut
  import opened MatMulSizing

  /** Warm-up launches before the timed ones: two, unless exactly one
      iteration is asked for. */
  function Warmups(iterations: int): nat
  {
    if iterations != 1 then 2 else 0
  }

  /** Every launch `run` makes when none fails. */
  function Planned(iterations: int): nat
  {
    Warmups(iterations) + (if iterations > 0 then iterations else 0)
  }

  /** The launches [lo, hi) all succeed. */
  predicate AllSucceed(kernelRun: nat -> int, lo: nat, hi: nat)
  {
    forall j :: lo <= j < hi ==> kernelRun(j) == SdkSuccess
  }

  /** The keys that end the program: Escape, 'q' and 'Q'. */
  predicate QuitKey(key: char)
  {
    key == Escape || key == 'q' || key == 'Q'
  }

  class MatrixMultiplication {
    var n: int
    var m: int
    var k: int
    var blockSize: nat
    var width0: int
    var height0: int
    var width1: int
    var height1: int
    var globalThreads: (nat, nat)
    var localThreads: (nat, nat)
    var availableLocalMemory: nat
    var neededLocalMemory: nat
    var iterations: int
    var lds: bool
    /** The process has died on a division by zero. */
    var crashed: bool
    /** The process has gone through exit(). */
    var exited: bool

    /** `blockSize` is a `cl_uint`. */
    ghost predicate Valid()
      reads this
    {
      blockSize < U32
    }

    /** The object as the command-line parser leaves it: the constructor's
        defaults are DefaultN, DefaultM, DefaultK and DefaultBlockSize, each
        of which the parser may override. */
    constructor (n: int, m: int, k: int, blockSize: nat, iterations: int, lds: bool)
      requires blockSize < U32
      ensures Valid() && !crashed && !exited
      ensures this.n == n && this.m == m && this.k == k && this.blockSize == blockSize
      ensures this.iterations == iterations && this.lds == lds
    {
      this.n, this.m, this.k := n, m, k;
      this.blockSize := blockSize;
      this.iterations, this.lds := iterations, lds;
      width0, height0, width1, height1 := 0, 0, 0, 0;
      globalThreads, localThreads := (0, 0), (0, 0);
      availableLocalMemory, neededLocalMemory := 0, 0;
      crashed, exited := false, false;
    }

    /** Setup: a zero dimension fails; otherwise n, m and k are rounded up to
        multiples of blockSize * 4 and the two matrices' shapes follow from
        them, A being n x m (height0 x width0) and B m x k. */
    method Setup() returns (status: int)
      requires Valid() && !crashed
      modifies this`n, this`m, this`k, this`width0, this`height0, this`width1, this`height1, this`crashed
      ensures Valid()
      ensures match SetupDims(Dims(old(n), old(m), old(k)), blockSize)
              case ZeroDimension =>
                status == SdkFailure && !crashed && n == old(n) && m == old(m) && k == old(k)
              case DivisionByZero => crashed
              case Sized(d) =>
                status == SdkSuccess && !crashed && n == d.n && m == d.m && k == d.k
                && width0 == m && height0 == n && width1 == k && height1 == m
    {
      if n == 0 || m == 0 || k == 0 {
        return SdkFailure;
      }
      var step := (blockSize * VectorSize) % U32;
      if step == 0 {
        crashed := true;
        return SdkFailure;
      }
      n := RoundUp(n, step);
      m := RoundUp(m, step);
      k := RoundUp(k, step);
      width0, height0 := m, n;
      width1, height1 := k, m;
      return SdkSuccess;
    }

    /** setWorkGroupSize: the NDRange from the matrix shapes and the block
        size, then the local-memory check (whose failure is reported as a
        success), the 8/4 ladder and the device limits. */
    method SetWorkGroupSize(lim: Limits) returns (status: int)
      requires Valid() && Fits(lim)
      modifies this`blockSize, this`globalThreads, this`localThreads, this`availableLocalMemory,
               this`neededLocalMemory
      ensures Valid()
      ensures status == SizingStatus(SizingOf(old(blockSize), lim))
      ensures blockSize == BlockAfter(old(blockSize), lim)
      ensures globalThreads == GlobalFor(width1, height0) && localThreads == (blockSize, blockSize)
      ensures lim.infoOk ==> availableLocalMemory == Available(lim) && neededLocalMemory == Needed(old(blockSize))
      ensures !lim.infoOk ==>
                availableLocalMemory == old(availableLocalMemory) && neededLocalMemory == old(neededLocalMemory)
    {
      globalThreads := GlobalFor(width1, height0);
      localThreads := (blockSize, blockSize);
      if !lim.infoOk {
        return SdkFailure;
      }
      availableLocalMemory := (lim.localMemSize - lim.localMemoryUsed) % U64;
      neededLocalMemory := (2 * blockSize * blockSize % U32) * FloatSize;
      if neededLocalMemory > availableLocalMemory {
        return SdkSuccess;
      }
      if localThreads.0 * localThreads.1 % U32 > lim.kernelWorkGroupSize {
        if lim.kernelWorkGroupSize >= 64 {
          blockSize := 8;
          localThreads := (blockSize, blockSize);
        } else if lim.kernelWorkGroupSize >= 32 {
          blockSize := 4;
          localThreads := (blockSize, blockSize);
        } else {
          return SdkFailure;
        }
      }
      if localThreads.0 > lim.maxWorkItemSizes0 || localThreads.1 > lim.maxWorkItemSizes1
         || localThreads.0 * localThreads.1 > lim.maxWorkGroupSize {
        return SdkFailure;
      }
      return SdkSuccess;
    }

    /** run: the warm-up launches, then `iterations` timed ones, stopping at
        the first launch that fails. `kernelRun(j)` is the status of the j-th
        runCLKernels call; `calls` counts the calls made. A failed warm-up
        gives SdkFailure, a failed timed launch its own status. */
    method Run(kernelRun: nat -> int) returns (status: int, calls: nat)
      ensures status == SdkSuccess <==> calls == Planned(iterations) && AllSucceed(kernelRun, 0, calls)
      ensures calls <= Planned(iterations) && (calls > 0 ==> AllSucceed(kernelRun, 0, calls - 1))
      ensures status != SdkSuccess ==>
                0 < calls && kernelRun(calls - 1) != SdkSuccess
                && status == (if calls <= Warmups(iterations) then SdkFailure else kernelRun(calls - 1))
    {
      calls := 0;
      var i := 0;
      while i < 2 && iterations != 1
        invariant 0 <= i <= Warmups(iterations) && calls == i
        invariant AllSucceed(kernelRun, 0, calls)
      {
        calls := calls + 1;
        if kernelRun(calls - 1) != SdkSuccess {
          return SdkFailure, calls;
        }
        i := i + 1;
      }
      i := 0;
      while i < iterations
        invariant 0 <= i && (i <= iterations || iterations <= 0) && calls == Warmups(iterations) + i
        invariant iterations <= 0 ==> i == 0
        invariant AllSucceed(kernelRun, 0, calls)
      {
        calls := calls + 1;
        var st := kernelRun(calls - 1);
        if st != SdkSuccess {
          return st, calls;
        }
        i := i + 1;
      }
      return SdkSuccess, calls;
    }

    /** glKeyboardFunc: Escape, 'q' and 'Q' clean up and exit, with 1 when
        the cleanup fails and 0 otherwise; every other key is ignored. */
    method KeyboardFunc(key: char, cleanupStatus: int) returns (out: Outcome)
      requires !exited
      modifies this`exited
      ensures QuitKey(key) ==> out == Exit(if cleanupStatus != SdkSuccess then 1 else 0) && exited
      ensures !QuitKey(key) ==> out == Continue && !exited
    {
      if key == Escape || key == 'q' || key == 'Q' {
        exited := true;
        if cleanupStatus != SdkSuccess {
          return Exit(1);
        }
        return Exit(0);
      }
      return Continue;
    }
  }
}
