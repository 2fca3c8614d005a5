/** The OpenCL/OpenGL set-up of src/VecAdd/VecAdd.cpp: the device type
    setupCL asks for, the probe in initializeGLAndGetCLContext that looks for
    a screen whose GL context has an interoperable OpenCL device, the context
    built after the probe, the choice of the interop device, and the
    work-group fallback at the end of setupCL. */
module VecAdd {
  import opened CommandLine
  import opened MatMulSizing

  datatype DeviceType = Cpu | Gpu

  /** The device type setupCL asks for: "cpu" selects the CPU; anything else
      the GPU, falling back to the CPU when there is no GPU. */
  function DeviceTypeFor(deviceType: string, gpuPresent: bool): DeviceType
  {
    if deviceType == "cpu" || !gpuPresent then Cpu else Gpu
  }

  /** The branch initializeGLAndGetCLContext takes after the probe: only the
      exact name "gpu" builds the context on the GL context's own device;
      every other name asks for a CPU context. */
  function ContextPath(deviceType: string): DeviceType
  {
    if deviceType == "gpu" then Gpu else Cpu
  }

  /** The two functions above test different names, so they disagree exactly
      when the GPU was asked for but is missing (the context is still built on
      the GL device, then a CPU device is picked from it), or when the name
      is neither "cpu" nor "gpu" while a GPU exists (a CPU context, yet a GPU
      device type, so no interop device is ever chosen). */
  lemma PathsDisagree(deviceType: string, gpuPresent: bool)
    ensures ContextPath(deviceType) != DeviceTypeFor(deviceType, gpuPresent)
            <==> (deviceType == "gpu" && !gpuPresent)
                 || (deviceType != "gpu" && deviceType != "cpu" && gpuPresent)
  {
  }

  // ---------------------------------------------------------------------
  // The screen probe

  /** What the interop-device query answers for one screen's GL context:
      a failure, or the number of interoperable devices. */
  datatype ScreenReply = QueryFailed | Devices(count: nat)

  /** How the probe loop ends: at a screen with an interop device, at a screen
      whose query failed, or after the last screen. */
  datatype ProbeEnd = Found(screen: nat) | Failed(screen: nat) | Exhausted

  /** The probe skips screen `i` (the `continue` before opening it). */
  predicate Skipped(idEnabled: bool, deviceId: nat, i: nat)
    requires deviceId < U32
  {
    idEnabled && i < AsI32(deviceId)
  }

  /** The first screen the probe opens: with a device id given, the screens
      below `(int)deviceId` are skipped; the cast makes an id of 2^31 or more
      negative, so then none is. */
  function FirstScreen(idEnabled: bool, deviceId: nat): (f: nat)
    requires deviceId < U32
    ensures forall i: nat :: Skipped(idEnabled, deviceId, i) <==> i < f
    ensures idEnabled && deviceId < I32 ==> f == deviceId
    ensures deviceId >= I32 ==> f == 0
  {
    if idEnabled && AsI32(deviceId) > 0 then AsI32(deviceId) else 0
  }

  /** The screen the loop stopped at, or `n` when it ran out of screens. */
  function Stop(e: ProbeEnd, n: nat): nat
  {
    if e.Exhausted? then n else e.screen
  }

  /** `e` is how a probe over screens i .. n-1 must end: every screen before
      the stop had no interop device, and the stop is a screen with one, a
      screen whose query failed, or the end. */
  predicate FirstInterop(i: nat, n: nat, reply: nat -> ScreenReply, e: ProbeEnd)
  {
    (e.Found? ==> i <= e.screen < n && reply(e.screen).Devices? && reply(e.screen).count > 0)
    && (e.Failed? ==> i <= e.screen < n && reply(e.screen) == QueryFailed)
    && forall j :: i <= j < Stop(e, n) ==> reply(j) == Devices(0)
  }

  /** The probe over screens i .. n-1, one screen at a time. */
  function ProbeFrom(i: nat, n: nat, reply: nat -> ScreenReply): (e: ProbeEnd)
    ensures FirstInterop(i, n, reply, e)
    decreases n - i
  {
    if i >= n then Exhausted
    else match reply(i)
      case QueryFailed => Failed(i)
      case Devices(c) => if c == 0 then ProbeFrom(i + 1, n, reply) else Found(i)
  }

  /** FirstInterop pins the end down: the probe is the only end it allows. */
  lemma {:induction false} FirstInteropUnique(i: nat, n: nat, reply: nat -> ScreenReply, e: ProbeEnd)
    requires FirstInterop(i, n, reply, e)
    ensures e == ProbeFrom(i, n, reply)
  {
  }

  /** The screens lo, lo+1, ..., hi-1 in order (empty when lo >= hi). */
  function Range(lo: nat, hi: nat): (r: seq<nat>)
    ensures |r| == (if lo < hi then hi - lo else 0)
    ensures forall k :: 0 <= k < |r| ==> r[k] == lo + k
    decreases hi
  {
    if lo >= hi then [] else Range(lo, hi - 1) + [hi - 1]
  }

  /** The contexts the probe destroys, in order: those of the screens it
      opened before the stop, none of which had an interop device. */
  function Destroyed(first: nat, n: nat, e: ProbeEnd): seq<nat>
  {
    Range(first, Stop(e, n))
  }

  /** gGlCtxSep after the probe: the context of the screen it stopped at, or,
      when no screen qualified, that of the last screen opened; it keeps its
      old value when no screen was opened at all. */
  function GlContextAfter(first: nat, n: nat, e: ProbeEnd, before: Option<nat>): Option<nat>
  {
    match e
    case Found(s) => Some(s)
    case Failed(s) => Some(s)
    case Exhausted => if first < n then Some(n - 1) else before
  }

  /** When no screen qualifies the probe still ends without error, and the
      context it leaves current is the last screen's, already destroyed; the
      context of a screen that did qualify is never destroyed. */
  lemma ExhaustedLeavesDestroyedContext(first: nat, n: nat, reply: nat -> ScreenReply, before: Option<nat>)
    ensures var e := ProbeFrom(first, n, reply);
            e.Exhausted? && first < n ==>
              GlContextAfter(first, n, e, before) == Some(n - 1) && n - 1 in Destroyed(first, n, e)
    ensures var e := ProbeFrom(first, n, reply);
            e.Found? ==> GlContextAfter(first, n, e, before) == Some(e.screen) && e.screen !in Destroyed(first, n, e)
  {
  }

  // ---------------------------------------------------------------------
  // After the probe

  /** The OpenCL context: built on the device of the GL context of a screen
      (`gl` is the screen whose GL context was current), or asked for by
      device type CPU. */
  datatype ClContext = OnGlDevice(gl: Option<nat>, device: int) | CpuContext(gl: Option<nat>)

  /** `interopDeviceId`: never assigned, an actual device, or the read of
      entry `index` past the end of the context's device list. */
  datatype DeviceRef = Unset | Device(id: int) | PastEnd(index: nat)

  /** The answers initializeGLAndGetCLContext receives: the screen count, each
      screen's interop-device query, the query of the current context's
      device (None when it fails), whether the context was created and
      whether GLEW reports the needed extensions. */
  datatype GlReplies = GlReplies(screens: nat, probe: nat -> ScreenReply, glDevice: Option<int>,
                                 contextOk: bool, glewOk: bool)

  /** The status of initializeGLAndGetCLContext once the probe ended with `e`. */
  function GlStatus(deviceType: string, e: ProbeEnd, gl: GlReplies): int
  {
    if e.Failed? then SdkFailure
    else if ContextPath(deviceType) == Gpu && gl.glDevice.None? then SdkFailure
    else if !gl.contextOk then SdkFailure
    else if !gl.glewOk then SdkFailure
    else SdkSuccess
  }

  /** The OpenCL context after initializeGLAndGetCLContext; a failed creation
      leaves it null. */
  function ContextAfter(deviceType: string, e: ProbeEnd, glContext: Option<nat>, gl: GlReplies,
                        before: Option<ClContext>): Option<ClContext>
  {
    if e.Failed? then before
    else if ContextPath(deviceType) == Gpu then
      if gl.glDevice.None? then before
      else if gl.contextOk then Some(OnGlDevice(glContext, gl.glDevice.value))
      else None
    else if gl.contextOk then Some(CpuContext(glContext))
    else None
  }

  /** `interopDeviceId` after initializeGLAndGetCLContext: only the "gpu"
      branch sets it, to the current GL context's device. */
  function InteropAfter(deviceType: string, e: ProbeEnd, gl: GlReplies, before: DeviceRef): DeviceRef
  {
    if !e.Failed? && ContextPath(deviceType) == Gpu && gl.glDevice.Some? then Device(gl.glDevice.value)
    else before
  }

  /** Entry `index` of the device list. */
  function DeviceAt(devices: seq<int>, index: nat): DeviceRef
  {
    if index < |devices| then Device(devices[index]) else PastEnd(index)
  }

  /** initializeGLAndGetCLContext succeeds exactly when the probe did not fail
      and every later step did; on success the OpenCL context is built on the
      GL context the probe left current, which is that of a screen with an
      interop device or, when there was none, a destroyed one. */
  lemma GlSuccessContext(deviceType: string, first: nat, gl: GlReplies, glBefore: Option<nat>,
                         before: Option<ClContext>)
    ensures var e := ProbeFrom(first, gl.screens, gl.probe);
            GlStatus(deviceType, e, gl) == SdkSuccess
            <==> !e.Failed? && (deviceType == "gpu" ==> gl.glDevice.Some?) && gl.contextOk && gl.glewOk
    ensures var e := ProbeFrom(first, gl.screens, gl.probe);
            var ctx := GlContextAfter(first, gl.screens, e, glBefore);
            GlStatus(deviceType, e, gl) == SdkSuccess ==>
              ContextAfter(deviceType, e, ctx, gl, before).Some?
              && ContextAfter(deviceType, e, ctx, gl, before).value.gl == ctx
              && (e.Found? ==> ctx == Some(e.screen) && gl.probe(e.screen).count > 0)
              && (e.Exhausted? && first < gl.screens ==> ctx.value in Destroyed(first, gl.screens, e))
  {
  }

  // ---------------------------------------------------------------------
  // The block-size fallback

  /** The end of setupCL: when the work group blockSizeX x blockSizeY is
      larger than the kernel allows, it falls back to a row of the allowed
      size, but only when blockSizeX alone is too large. */
  function Fallback(sizeX: nat, sizeY: nat, kwgs: nat): (r: (nat, nat))
    ensures sizeX * sizeY <= kwgs ==> r == (sizeX, sizeY)
    ensures r != (sizeX, sizeY) ==> sizeX > kwgs && r == (kwgs, 1)
  {
    if sizeX * sizeY > kwgs && sizeX > kwgs then (kwgs, 1) else (sizeX, sizeY)
  }

  /** After the fallback the group fits exactly when it fitted already or
      blockSizeX alone was too large: an oversized group whose row fits is
      kept as it is. */
  lemma FallbackFitsIff(sizeX: nat, sizeY: nat, kwgs: nat)
    ensures var r := Fallback(sizeX, sizeY, kwgs);
            r.0 * r.1 <= kwgs <==> sizeX * sizeY <= kwgs || sizeX > kwgs
  {
    var r := Fallback(sizeX, sizeY, kwgs);
    if sizeX * sizeY > kwgs && sizeX <= kwgs {
      assert r == (sizeX, sizeY);
    }
  }

  /** Falling back twice is falling back once. */
  lemma FallbackIdempotent(sizeX: nat, sizeY: nat, kwgs: nat)
    ensures var r := Fallback(sizeX, sizeY, kwgs);
            Fallback(r.0, r.1, kwgs) == r
  {
  }

  /** The answers setupCL receives besides those of the probe: the platform,
      the device listing, the context's device list (None when a query
      fails), and the kernel's work-group limit once the queue, the program
      and the kernel exist (None when any of those steps fails). */
  datatype SetupReplies = SetupReplies(platformOk: bool, devicesShown: bool, gl: GlReplies,
                                       contextDevices: Option<seq<int>>, kernelWorkGroupSize: Option<nat>)

  class VecAddSample {
    /** The command line's device type, and whether it named a device id. */
    var deviceType: string
    var gpuPresent: bool
    var idEnabled: bool
    /** `sampleArgs->deviceId`, a `cl_uint`. */
    var deviceId: nat
    /** dType in setupCL. */
    var dType: DeviceType
    /** gGlCtxSep: the screen whose GL context it holds; None while unset. */
    var glContext: Option<nat>
    /** The screens whose GL contexts have been destroyed, in order. */
    var destroyed: seq<nat>
    var context: Option<ClContext>
    var interopDevice: DeviceRef
    var blockSizeX: nat
    var blockSizeY: nat

    ghost predicate Valid()
      reads this
    {
      deviceId < U32
    }

    constructor (deviceType: string, gpuPresent: bool, idEnabled: bool, deviceId: nat,
                 blockSizeX: nat, blockSizeY: nat)
      requires deviceId < U32
      ensures Valid()
      ensures this.deviceType == deviceType && this.gpuPresent == gpuPresent
      ensures this.idEnabled == idEnabled && this.deviceId == deviceId
      ensures this.blockSizeX == blockSizeX && this.blockSizeY == blockSizeY
      ensures glContext == None && destroyed == [] && context == None && interopDevice == Unset
    {
      this.deviceType, this.gpuPresent := deviceType, gpuPresent;
      this.idEnabled, this.deviceId := idEnabled, deviceId;
      this.blockSizeX, this.blockSizeY := blockSizeX, blockSizeY;
      dType := Gpu;
      glContext, destroyed := None, [];
      context, interopDevice := None, Unset;
    }

    /** The probe loop of initializeGLAndGetCLContext: it opens the screens
        from FirstScreen on, makes each one's GL context current, stops at
        the first with an interop device or a failed query, and destroys the
        context of every screen without one. */
    method ProbeScreens(screens: nat, reply: nat -> ScreenReply) returns (status: int, e: ProbeEnd)
      requires Valid()
      modifies this`glContext, this`destroyed
      ensures e == ProbeFrom(FirstScreen(idEnabled, deviceId), screens, reply)
      ensures status == (if e.Failed? then SdkFailure else SdkSuccess)
      ensures glContext == GlContextAfter(FirstScreen(idEnabled, deviceId), screens, e, old(glContext))
      ensures destroyed == old(destroyed) + Destroyed(FirstScreen(idEnabled, deviceId), screens, e)
    {
      var first := FirstScreen(idEnabled, deviceId);
      var i: nat := 0;
      while i < screens
        invariant i <= screens
        invariant first <= i ==> ProbeFrom(first, screens, reply) == ProbeFrom(i, screens, reply)
        invariant glContext == (if i <= first then old(glContext) else Some(i - 1))
        invariant destroyed == old(destroyed) + Range(first, i)
      {
        if idEnabled && i < AsI32(deviceId) {
          i := i + 1;
        } else {
          glContext := Some(i);
          match reply(i)
          case QueryFailed =>
            return SdkFailure, Failed(i);
          case Devices(count) =>
            if count == 0 {
              destroyed := destroyed + [i];
              i := i + 1;
            } else {
              return SdkSuccess, Found(i);
            }
        }
      }
      return SdkSuccess, Exhausted;
    }

    /** initializeGLAndGetCLContext: the probe, then the OpenCL context on
        the GL context left current — on its own device for "gpu", device
        type CPU otherwise — then the GLEW extension check. */
    method InitializeGLAndGetCLContext(gl: GlReplies) returns (status: int)
      requires Valid()
      modifies this`glContext, this`destroyed, this`context, this`interopDevice
      ensures var e := ProbeFrom(FirstScreen(idEnabled, deviceId), gl.screens, gl.probe);
              && status == GlStatus(deviceType, e, gl)
              && glContext == GlContextAfter(FirstScreen(idEnabled, deviceId), gl.screens, e, old(glContext))
              && destroyed == old(destroyed) + Destroyed(FirstScreen(idEnabled, deviceId), gl.screens, e)
              && context == ContextAfter(deviceType, e, glContext, gl, old(context))
              && interopDevice == InteropAfter(deviceType, e, gl, old(interopDevice))
    {
      var e;
      status, e := ProbeScreens(gl.screens, gl.probe);
      if status != SdkSuccess {
        return;
      }
      if deviceType == "gpu" {
        if gl.glDevice.None? {
          return SdkFailure;
        }
        interopDevice := Device(gl.glDevice.value);
        if !gl.contextOk {
          context := None;
          return SdkFailure;
        }
        context := Some(OnGlDevice(glContext, gl.glDevice.value));
      } else {
        if !gl.contextOk {
          context := None;
          return SdkFailure;
        }
        context := Some(CpuContext(glContext));
      }
      if !gl.glewOk {
        return SdkFailure;
      }
      return SdkSuccess;
    }

    /** setupCL: the device type; the platform and the device listing; the
        GL context and the OpenCL context; the context's device list, from
        which a CPU device type takes entry deviceId as the interop device;
        the queue, program and kernel; and the block-size fallback. */
    method SetupCL(r: SetupReplies) returns (status: int)
      requires Valid()
      modifies this`dType, this`glContext, this`destroyed, this`context, this`interopDevice,
               this`blockSizeX, this`blockSizeY
      ensures Valid()
      ensures dType == DeviceTypeFor(deviceType, gpuPresent)
      ensures var first := FirstScreen(idEnabled, deviceId);
              var e := ProbeFrom(first, r.gl.screens, r.gl.probe);
              var probed := r.platformOk && r.devicesShown;
              var listed := probed && GlStatus(deviceType, e, r.gl) == SdkSuccess && r.contextDevices.Some?;
              var built := listed && r.kernelWorkGroupSize.Some?;
              && status == (if built then SdkSuccess else SdkFailure)
              && glContext == (if probed then GlContextAfter(first, r.gl.screens, e, old(glContext))
                               else old(glContext))
              && destroyed == (if probed then old(destroyed) + Destroyed(first, r.gl.screens, e)
                               else old(destroyed))
              && context == (if probed then ContextAfter(deviceType, e, glContext, r.gl, old(context))
                             else old(context))
              && interopDevice == (if listed && dType == Cpu then DeviceAt(r.contextDevices.value, deviceId)
                                   else if probed then InteropAfter(deviceType, e, r.gl, old(interopDevice))
                                   else old(interopDevice))
              && (blockSizeX, blockSizeY)
                 == (if built then Fallback(old(blockSizeX), old(blockSizeY), r.kernelWorkGroupSize.value)
                     else (old(blockSizeX), old(blockSizeY)))
    {
      if deviceType == "cpu" {
        dType := Cpu;
      } else {
        dType := Gpu;
        if !gpuPresent {
          dType := Cpu;
        }
      }
      if !r.platformOk || !r.devicesShown {
        return SdkFailure;
      }
      status := InitializeGLAndGetCLContext(r.gl);
      if status != SdkSuccess {
        return SdkFailure;
      }
      if r.contextDevices.None? {
        return SdkFailure;
      }
      if dType == Cpu {
        interopDevice := DeviceAt(r.contextDevices.value, deviceId);
      }
      if r.kernelWorkGroupSize.None? {
        return SdkFailure;
      }
      var kwgs := r.kernelWorkGroupSize.value;
      if blockSizeX * blockSizeY > kwgs {
        if blockSizeX > kwgs {
          blockSizeX := kwgs;
          blockSizeY := 1;
        }
      }
      return SdkSuccess;
    }

    /** runCLKernels: an empty body that reports success. */
    method RunCLKernels() returns (status: int)
      ensures status == SdkSuccess
    {
      return SdkSuccess;
    }
  }
}
