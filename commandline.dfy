/** Command-line switches as the samples read them: each token is checked with
    strstr against the switch names in a fixed order, and the first name it
    contains decides what the token does. */
module CommandLine {

  datatype Option<T> = None | Some(value: T)

  /** `pattern` occurs in `token` starting at position `k`. */
  predicate OccursAt(token: string, pattern: string, k: nat)
  {
    k + |pattern| <= |token| && token[k..k + |pattern|] == pattern
  }

  /** strstr(token, pattern) != NULL: `pattern` occurs somewhere in `token`. */
  predicate Contains(token: string, pattern: string)
  {
    exists k: nat :: k <= |token| && OccursAt(token, pattern, k)
  }

  /** The index of the first of `patterns` that `token` contains, as an
      if / else-if chain of strstr tests finds it; None when it contains none. */
  function Classify(token: string, patterns: seq<string>): (r: Option<nat>)
    ensures r.Some? ==> r.value < |patterns| && Contains(token, patterns[r.value])
    ensures forall j :: 0 <= j < |patterns| && (r.None? || j < r.value) ==> !Contains(token, patterns[j])
    decreases |patterns|
  {
    if patterns == [] then None
    else if Contains(token, patterns[0]) then Some(0)
    else
      match Classify(token, patterns[1..])
      case None => None
      case Some(i) => Some(i + 1)
  }

  /** The class of every token of `argv`. */
  function Kinds(argv: seq<string>, patterns: seq<string>): (ks: seq<Option<nat>>)
    ensures |ks| == |argv| && forall i :: 0 <= i < |argv| ==> ks[i] == Classify(argv[i], patterns)
  {
    seq(|argv|, i requires 0 <= i < |argv| => Classify(argv[i], patterns))
  }

  // ---------------------------------------------------------------------
  // What the switches do. Every sample lists the CPU switch first and the
  // GPU switch second, and starts from use_gpu = 1.

  /** use_gpu after tokens of classes `ks`: class 0 sets it to 0, class 1 to
      1, anything else leaves it. */
  function DeviceAfter(ks: seq<Option<nat>>): (d: int)
    ensures d == 0 || d == 1
    decreases |ks|
  {
    if ks == [] then 1
    else if ks[|ks| - 1] == Some(0) then 0
    else if ks[|ks| - 1] == Some(1) then 1
    else DeviceAfter(ks[..|ks| - 1])
  }

  /** The device switches of the NBody and FFT samples, in the order their
      main tests them. */
  const DeviceNames: seq<string> := ["cpu", "gpu"]

  /** The parse loop of main in the NBody and FFT samples, over every token,
      argv[0] included. */
  method ParseDevice(argv: seq<string>) returns (useGpu: int)
    ensures useGpu == DeviceAfter(Kinds(argv, DeviceNames))
  {
    ghost var ks := Kinds(argv, DeviceNames);
    useGpu := 1;
    for i := 0 to |argv|
      invariant useGpu == DeviceAfter(ks[..i])
    {
      assert ks[..i + 1][..i] == ks[..i];
      var c := Classify(argv[i], DeviceNames);
      if c == Some(0) {
        useGpu := 0;
      } else if c == Some(1) {
        useGpu := 1;
      }
    }
    assert ks[..|argv|] == ks;
  }

  /** A flag that tokens of class `k` switch on and nothing switches off. */
  function Seen(ks: seq<Option<nat>>, k: nat): bool
    decreases |ks|
  {
    ks != [] && (ks[|ks| - 1] == Some(k) || Seen(ks[..|ks| - 1], k))
  }

  /** Token i selects the CPU and no later token selects the GPU. */
  predicate CpuChosenAt(ks: seq<Option<nat>>, i: int)
  {
    0 <= i < |ks| && ks[i] == Some(0) && forall j :: i < j < |ks| ==> ks[j] != Some(1)
  }

  /** The device is decided by the last token that names one: the CPU is used
      exactly when such a token names the CPU switch first. */
  lemma {:induction false} LastDeviceTokenWins(ks: seq<Option<nat>>)
    ensures DeviceAfter(ks) == 0 <==> exists i :: CpuChosenAt(ks, i)
    decreases |ks|
  {
    if ks != [] {
      var n := |ks| - 1;
      var front := ks[..n];
      LastDeviceTokenWins(front);
      assert forall j :: 0 <= j < n ==> ks[j] == front[j];
      if ks[n] == Some(0) {
        assert CpuChosenAt(ks, n);
      } else if ks[n] == Some(1) {
        assert forall i :: !CpuChosenAt(ks, i);
      } else {
        assert forall i :: CpuChosenAt(ks, i) <==> CpuChosenAt(front, i);
      }
    }
  }

  /** A flag is on exactly when some token has its class. */
  lemma {:induction false} SeenSomewhere(ks: seq<Option<nat>>, k: nat)
    ensures Seen(ks, k) <==> exists i :: 0 <= i < |ks| && ks[i] == Some(k)
    decreases |ks|
  {
    if ks != [] {
      var n := |ks| - 1;
      SeenSomewhere(ks[..n], k);
      assert forall j :: 0 <= j < n ==> ks[j] == ks[..n][j];
    }
  }
}

/** Conventions shared by the GLUT callbacks of the samples. */
module Glut {

  /** What a callback leaves the process doing: running on, or gone through
      exit(code). */
  datatype Outcome = Continue | Exit(code: int)

  /** The Escape key. */
  const Escape: char := 27 as char

  /** The resize rule of the Reshape callbacks: a window more than twice as
      wide or more than twice as tall as the current size forces a full
      re-initialisation. */
  predicate Outgrows(w: int, h: int, width: int, height: int)
  {
    w > 2 * width || h > 2 * height
  }

  /** `x > 0 ? 0 : 1`, the banner toggles of the 'i' and 's' keys: on becomes
      off and off becomes on. */
  function Toggle(x: nat): (r: nat)
    ensures r <= 1
    ensures r == 0 <==> x > 0
  {
    if x > 0 then 0 else 1
  }

  // ---------------------------------------------------------------------
  // The info banner counter of the ReportInfo callbacks

  /** `ShowInfo > 200 ? 0 : ShowInfo + 1`, applied by every frame that shows
      the banner; a banner that is off stays off. */
  function NextInfo(showInfo: nat): (r: nat)
    ensures showInfo == 0 ==> r == 0
    ensures 0 < showInfo <= 200 ==> r == showInfo + 1
    ensures showInfo > 200 ==> r == 0
  {
    if showInfo == 0 then 0 else if showInfo > 200 then 0 else showInfo + 1
  }

  /** The banner counter after `k` frames. */
  function InfoAfter(showInfo: nat, k: nat): nat
    decreases k
  {
    if k == 0 then showInfo else NextInfo(InfoAfter(showInfo, k - 1))
  }

  /** A banner switched on (to 1) by a key stays up for 201 frames, then goes
      away for good. */
  lemma {:induction false} BannerLifetime(k: nat)
    ensures InfoAfter(1, k) == if k <= 200 then 1 + k else 0
    decreases k
  {
    if k > 0 {
      BannerLifetime(k - 1);
    }
  }
}
