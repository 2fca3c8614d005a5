/** Common vocabulary of the GL/CL interop programs: the device memory objects,
    the GL and CL calls the frame controllers make (as abstract events), and the
    hand-off of GL-shared objects between the drawing side (OpenGL) and the
    compute side (OpenCL). */
module Interop {

  /** The USE_GL_ATTACHMENTS switch: `Shared` (1) makes CL objects aliases of GL
      objects that must be acquired and released around every use; `Copy` (0)
      moves the data through host memory instead. */
  datatype Mode = Shared | Copy

  /** Which API may touch a GL-shared object. */
  datatype Owner = Draw | Compute

  /** A device memory object, named after the variable that holds it; `slot`
      tells apart the two halves of a double-buffered pair (0 otherwise). */
  datatype Mem = Mem(name: string, slot: nat)

  /** A kernel argument: a memory object, an integer, or NULL (which, with a
      non-zero size, reserves local memory). */
  datatype ArgValue = MemArg(mem: Mem) | IntArg(value: int) | NullArg

  /** One clSetKernelArg call: argument index, value and size in bytes. */
  datatype Arg = Arg(index: nat, value: ArgValue, size: int)

  /** sizeof(cl_mem), sizeof(int) and sizeof(float) on the 64-bit targets. */
  const HandleBytes := 8
  const IntBytes := 4
  const FloatBytes := 4

  /** The GL and CL calls of the controllers, as abstract events. Only calls
      that matter to the hand-off or to what is computed are recorded. */
  datatype Event =
    | GlFinish                                    // glFinish
    | Acquire(mem: Mem)                           // clEnqueueAcquireGLObjects
    | Release(mem: Mem)                           // clEnqueueReleaseGLObjects
    | Write(mem: Mem, bytes: int)                 // clEnqueueWriteBuffer
    | Read(mem: Mem, bytes: int)                  // clEnqueueReadBuffer
    | SetArg(arg: Arg)                            // clSetKernelArg
    | Dispatch(global: seq<int>, local: seq<int>, uses: set<Mem>)  // clEnqueueNDRangeKernel
    | CopyToImage(src: Mem, dst: Mem)             // clEnqueueCopyBufferToImage
    | Flush                                       // clFlush
    | Wait                                        // clWaitForEvents on the last command
    | Finish                                      // clFinish
    | Create(mem: Mem)                            // clCreateBuffer / clCreateFromGLBuffer
    | Free(mem: Mem)                              // clReleaseMemObject
    | DrawTouch(mem: Mem)                         // GL writes the object underlying mem
    | Uniform(unit: int)                          // glUniform1i
    | Restart                                     // Cleanup: clFinish, kernel, program, queue and context released
    | HostAlloc(array: string)                    // calloc of a host array
    | HostFree(array: string)                     // free of a host array

  /** For each GL-shared object, who may touch it now. Objects that are not
      GL-shared are not in the map. */
  type Ownership = map<Mem, Owner>

  /** Every GL-shared object is with the drawing side. */
  predicate Settled(own: Ownership)
  {
    forall m :: m in own ==> own[m] == Draw
  }

  /** The effect of one event on the ownership map. */
  function Apply(own: Ownership, e: Event): Ownership
  {
    match e
    case Acquire(m) => own[m := Compute]
    case Release(m) => own[m := Draw]
    case _ => own
  }

  /** Neither an acquire nor a release. */
  predicate Neutral(e: Event)
  {
    !e.Acquire? && !e.Release?
  }

  /** Whether `e` may happen in state `own`: an object is acquired only from the
      drawing side and released only by the compute side; the compute side
      reads, writes or runs a kernel over a GL-shared object only while it holds
      it; the drawing side touches a GL-shared object only while it holds it. */
  predicate Allowed(own: Ownership, e: Event)
  {
    match e
    case Acquire(m) => m in own && own[m] == Draw
    case Release(m) => m in own && own[m] == Compute
    case Write(m, _) => m !in own || own[m] == Compute
    case Read(m, _) => m !in own || own[m] == Compute
    case Dispatch(_, _, uses) => forall m :: m in uses ==> m in own && own[m] == Compute
    case CopyToImage(src, dst) => (src !in own || own[src] == Compute) && dst in own && own[dst] == Compute
    case DrawTouch(m) => m !in own || own[m] == Draw
    case _ => true
  }

  /** The ownership after the events of `t`, in order. */
  function Replay(own: Ownership, t: seq<Event>): Ownership
    decreases |t|
  {
    if t == [] then own else Apply(Replay(own, t[..|t| - 1]), t[|t| - 1])
  }

  /** Every event of `t` is allowed in the state its predecessors leave. */
  predicate Legal(own: Ownership, t: seq<Event>)
    decreases |t|
  {
    t == [] || (Legal(own, t[..|t| - 1]) && Allowed(Replay(own, t[..|t| - 1]), t[|t| - 1]))
  }

  lemma {:induction false} ReplayConcat(own: Ownership, a: seq<Event>, b: seq<Event>)
    ensures Replay(own, a + b) == Replay(Replay(own, a), b)
    decreases |b|
  {
    if b != [] {
      var b' := b[..|b| - 1];
      assert (a + b)[..|a + b| - 1] == a + b';
      ReplayConcat(own, a, b');
    } else {
      assert a + b == a;
    }
  }

  lemma {:induction false} LegalConcat(own: Ownership, a: seq<Event>, b: seq<Event>)
    ensures Legal(own, a + b) <==> Legal(own, a) && Legal(Replay(own, a), b)
    decreases |b|
  {
    if b != [] {
      var b' := b[..|b| - 1];
      assert (a + b)[..|a + b| - 1] == a + b';
      LegalConcat(own, a, b');
      ReplayConcat(own, a, b');
    } else {
      assert a + b == a;
    }
  }

  /** One more event: legal exactly when the prefix is legal and the event is
      allowed where the prefix leaves off. */
  lemma LegalSnoc(own: Ownership, t: seq<Event>, e: Event)
    ensures Legal(own, t + [e]) <==> Legal(own, t) && Allowed(Replay(own, t), e)
    ensures Replay(own, t + [e]) == Apply(Replay(own, t), e)
  {
    assert (t + [e])[..|t + [e]| - 1] == t;
  }

  lemma {:induction false} LegalPrefix(own: Ownership, t: seq<Event>, n: nat)
    requires n <= |t|
    requires Legal(own, t)
    ensures Legal(own, t[..n])
    decreases |t| - n
  {
    if n < |t| {
      assert t[..|t| - 1][..n] == t[..n];
      LegalPrefix(own, t[..|t| - 1], n);
    } else {
      assert t[..n] == t;
    }
  }

  /** In a legal history, event `j` was allowed in the state that the events
      before it leave. */
  lemma LegalAt(own: Ownership, t: seq<Event>, j: nat)
    requires j < |t|
    requires Legal(own, t)
    ensures Allowed(Replay(own, t[..j]), t[j])
  {
    LegalPrefix(own, t, j + 1);
    assert t[..j + 1][..j] == t[..j];
  }

  /** After an acquire of `m`, `m` stays with the compute side as long as no
      release of `m` follows. */
  lemma {:induction false} HeldUntilRelease(own: Ownership, t: seq<Event>, i: nat, k: nat, m: Mem)
    requires i < k <= |t|
    requires t[i] == Acquire(m)
    requires forall p :: i < p < k ==> t[p] != Release(m)
    ensures m in Replay(own, t[..k]) && Replay(own, t[..k])[m] == Compute
    decreases k
  {
    assert t[..k][..k - 1] == t[..k - 1];
    if k - 1 > i {
      HeldUntilRelease(own, t, i, k - 1, m);
    }
  }

  /** After a release of `m`, `m` stays with the drawing side as long as no
      acquire of `m` follows. */
  lemma {:induction false} DrawnUntilAcquire(own: Ownership, t: seq<Event>, i: nat, k: nat, m: Mem)
    requires i < k <= |t|
    requires t[i] == Release(m)
    requires forall p :: i < p < k ==> t[p] != Acquire(m)
    ensures m in Replay(own, t[..k]) && Replay(own, t[..k])[m] == Draw
    decreases k
  {
    assert t[..k][..k - 1] == t[..k - 1];
    if k - 1 > i {
      DrawnUntilAcquire(own, t, i, k - 1, m);
    }
  }

  /** In a legal history an object is never acquired twice without a release
      in between. */
  lemma NoDoubleAcquire(own: Ownership, t: seq<Event>, i: nat, j: nat, m: Mem)
    requires Legal(own, t)
    requires i < j < |t| && t[i] == Acquire(m) && t[j] == Acquire(m)
    ensures exists p :: i < p < j && t[p] == Release(m)
  {
    if forall p :: i < p < j ==> t[p] != Release(m) {
      HeldUntilRelease(own, t, i, j, m);
      LegalAt(own, t, j);
      assert false;
    }
  }

  /** In a legal history an object is never released twice without an acquire
      in between. */
  lemma NoDoubleRelease(own: Ownership, t: seq<Event>, i: nat, j: nat, m: Mem)
    requires Legal(own, t)
    requires i < j < |t| && t[i] == Release(m) && t[j] == Release(m)
    ensures exists p :: i < p < j && t[p] == Acquire(m)
  {
    if forall p :: i < p < j ==> t[p] != Acquire(m) {
      DrawnUntilAcquire(own, t, i, j, m);
      LegalAt(own, t, j);
      assert false;
    }
  }

  // ---------------------------------------------------------------------
  // The shared-context bracket: acquire, work, release

  /** `own` with every object of `ms` handed to the compute side. */
  function Holding(own: Ownership, ms: seq<Mem>): Ownership
    decreases |ms|
  {
    if ms == [] then own else Holding(own[ms[0] := Compute], ms[1..])
  }

  /** Each object of `ms` acquired in order, each acquire followed by `glue`. */
  function AcquireAll(ms: seq<Mem>, glue: seq<Event>): seq<Event>
    decreases |ms|
  {
    if ms == [] then [] else [Acquire(ms[0])] + glue + AcquireAll(ms[1..], glue)
  }

  /** Each object of `ms` released in order, each release followed by `glue`. */
  function ReleaseAll(ms: seq<Mem>, glue: seq<Event>): seq<Event>
    decreases |ms|
  {
    if ms == [] then [] else [Release(ms[0])] + glue + ReleaseAll(ms[1..], glue)
  }

  /** A phase holds nothing but its hand-offs and its glue. */
  lemma {:induction false} PhaseMembers(ms: seq<Mem>, glue: seq<Event>)
    ensures forall e :: e in AcquireAll(ms, glue) ==> e.Acquire? || e in glue
    ensures forall e :: e in ReleaseAll(ms, glue) ==> e.Release? || e in glue
    decreases |ms|
  {
    if ms != [] {
      PhaseMembers(ms[1..], glue);
    }
  }

  /** The phases for a single object. */
  lemma OneObject(m: Mem, glue: seq<Event>)
    ensures AcquireAll([m], glue) == [Acquire(m)] + glue
    ensures ReleaseAll([m], glue) == [Release(m)] + glue
  {
    assert [m][1..] == [];
  }

  /** The phases for two objects. */
  lemma TwoObjects(m: Mem, n: Mem, glue: seq<Event>)
    ensures AcquireAll([m, n], glue) == [Acquire(m)] + glue + [Acquire(n)] + glue
    ensures ReleaseAll([m, n], glue) == [Release(m)] + glue + [Release(n)] + glue
  {
    assert [m, n][1..] == [n];
    OneObject(n, glue);
  }

  predicate Distinct(ms: seq<Mem>)
  {
    forall i, j :: 0 <= i < j < |ms| ==> ms[i] != ms[j]
  }

  /** Every object of `ms` is GL-shared and with the drawing side. */
  predicate AllDrawn(own: Ownership, ms: seq<Mem>)
  {
    forall i :: 0 <= i < |ms| ==> ms[i] in own && own[ms[i]] == Draw
  }

  /** Neutral events allowed in `own`. */
  predicate Quiet(own: Ownership, t: seq<Event>)
  {
    forall i :: 0 <= i < |t| ==> Neutral(t[i]) && Allowed(own, t[i])
  }

  lemma {:induction false} HoldingSpec(own: Ownership, ms: seq<Mem>)
    requires forall i :: 0 <= i < |ms| ==> ms[i] in own
    ensures Holding(own, ms).Keys == own.Keys
    ensures forall m :: m in own ==> Holding(own, ms)[m] == (if m in ms then Compute else own[m])
    decreases |ms|
  {
    if ms != [] {
      HoldingSpec(own[ms[0] := Compute], ms[1..]);
      assert forall m :: m in ms <==> m == ms[0] || m in ms[1..];
    }
  }

  /** A quiet stretch is legal and changes no ownership. */
  lemma {:induction false} QuietStretch(own: Ownership, t: seq<Event>)
    requires Quiet(own, t)
    ensures Legal(own, t) && Replay(own, t) == own
    decreases |t|
  {
    if t != [] {
      QuietStretch(own, t[..|t| - 1]);
      assert Neutral(t[|t| - 1]);
    }
  }

  lemma {:induction false} AcquirePhase(own: Ownership, ms: seq<Mem>, glue: seq<Event>)
    requires Distinct(ms) && AllDrawn(own, ms)
    requires forall o :: Quiet(o, glue)
    ensures Legal(own, AcquireAll(ms, glue))
    ensures Replay(own, AcquireAll(ms, glue)) == Holding(own, ms)
    decreases |ms|
  {
    if ms != [] {
      var own' := own[ms[0] := Compute];
      var head := [Acquire(ms[0])] + glue;
      assert Legal(own, [Acquire(ms[0])]) && Replay(own, [Acquire(ms[0])]) == own' by {
        LegalSnoc(own, [], Acquire(ms[0]));
      }
      QuietStretch(own', glue);
      LegalConcat(own, [Acquire(ms[0])], glue);
      ReplayConcat(own, [Acquire(ms[0])], glue);
      assert AllDrawn(own', ms[1..]) by {
        forall i | 0 <= i < |ms[1..]|
          ensures ms[1..][i] in own' && own'[ms[1..][i]] == Draw
        {
          assert ms[1..][i] == ms[i + 1] != ms[0];
        }
      }
      AcquirePhase(own', ms[1..], glue);
      LegalConcat(own, head, AcquireAll(ms[1..], glue));
      ReplayConcat(own, head, AcquireAll(ms[1..], glue));
    }
  }

  /** Releasing what was acquired, in the same order, hands every object back. */
  lemma {:induction false} ReleasePhase(own: Ownership, ms: seq<Mem>, glue: seq<Event>)
    requires Distinct(ms) && AllDrawn(own, ms)
    requires forall o :: Quiet(o, glue)
    ensures Legal(Holding(own, ms), ReleaseAll(ms, glue))
    ensures Replay(Holding(own, ms), ReleaseAll(ms, glue)) == own
    decreases |ms|
  {
    if ms != [] {
      var held := Holding(own, ms);
      var rest := ms[1..];
      assert AllDrawn(own, rest) && Distinct(rest) by {
        forall i | 0 <= i < |rest| ensures rest[i] in own && own[rest[i]] == Draw {
          assert rest[i] == ms[i + 1];
        }
      }
      HoldingSpec(own, ms);
      HoldingSpec(own, rest);
      assert ms[0] !in rest by {
        forall i | 0 <= i < |rest| ensures rest[i] != ms[0] {
          assert rest[i] == ms[i + 1];
        }
      }
      var back := held[ms[0] := Draw];
      assert back == Holding(own, rest) by {
        forall m | m in own ensures back[m] == Holding(own, rest)[m] {
          assert m in ms <==> m == ms[0] || m in rest;
        }
      }
      var head := [Release(ms[0])] + glue;
      LegalSnoc(held, [], Release(ms[0]));
      assert [] + [Release(ms[0])] == [Release(ms[0])];
      QuietStretch(back, glue);
      LegalConcat(held, [Release(ms[0])], glue);
      ReplayConcat(held, [Release(ms[0])], glue);
      ReleasePhase(own, rest, glue);
      LegalConcat(held, head, ReleaseAll(rest, glue));
      ReplayConcat(held, head, ReleaseAll(rest, glue));
    }
  }

  /** The shared-context protocol of one frame: quiet events, every object of
      `ms` acquired, work that the held objects allow, every object released in
      the same order, quiet events. Such a frame is legal from any state in
      which the objects are with the drawing side, and it hands every one of
      them back. */
  lemma Bracket(own: Ownership, pre: seq<Event>, ms: seq<Mem>, glue: seq<Event>,
                work: seq<Event>, post: seq<Event>)
    requires Distinct(ms) && AllDrawn(own, ms)
    requires forall o :: Quiet(o, glue)
    requires Quiet(own, pre) && Quiet(Holding(own, ms), work) && Quiet(own, post)
    ensures Legal(own, pre + AcquireAll(ms, glue) + work + ReleaseAll(ms, glue) + post)
    ensures Replay(own, pre + AcquireAll(ms, glue) + work + ReleaseAll(ms, glue) + post) == own
  {
    var held := Holding(own, ms);
    var a := AcquireAll(ms, glue);
    var r := ReleaseAll(ms, glue);
    QuietStretch(own, pre);
    AcquirePhase(own, ms, glue);
    QuietStretch(held, work);
    ReleasePhase(own, ms, glue);
    QuietStretch(own, post);
    LegalConcat(own, pre, a);
    ReplayConcat(own, pre, a);
    LegalConcat(own, pre + a, work);
    ReplayConcat(own, pre + a, work);
    LegalConcat(own, pre + a + work, r);
    ReplayConcat(own, pre + a + work, r);
    LegalConcat(own, pre + a + work + r, post);
    ReplayConcat(own, pre + a + work + r, post);
  }

  // ---------------------------------------------------------------------
  // Order of calls within a frame

  /** The objects acquired in `t`, in order. */
  function Acquired(t: seq<Event>): seq<Mem>
    decreases |t|
  {
    if t == [] then [] else (if t[0].Acquire? then [t[0].mem] else []) + Acquired(t[1..])
  }

  /** The objects released in `t`, in order. */
  function Released(t: seq<Event>): seq<Mem>
    decreases |t|
  {
    if t == [] then [] else (if t[0].Release? then [t[0].mem] else []) + Released(t[1..])
  }

  lemma {:induction false} AcquiredConcat(a: seq<Event>, b: seq<Event>)
    ensures Acquired(a + b) == Acquired(a) + Acquired(b)
    ensures Released(a + b) == Released(a) + Released(b)
    decreases |a|
  {
    if a != [] {
      assert (a + b)[1..] == a[1..] + b;
      AcquiredConcat(a[1..], b);
    } else {
      assert a + b == b;
    }
  }

  lemma {:induction false} NeutralOrder(t: seq<Event>)
    requires forall i :: 0 <= i < |t| ==> Neutral(t[i])
    ensures Acquired(t) == [] && Released(t) == []
    decreases |t|
  {
    if t != [] {
      NeutralOrder(t[1..]);
    }
  }

  /** An acquire phase acquires exactly `ms`, in order, and releases nothing. */
  lemma {:induction false} AcquireOrder(ms: seq<Mem>, glue: seq<Event>)
    requires Acquired(glue) == [] && Released(glue) == []
    ensures Acquired(AcquireAll(ms, glue)) == ms && Released(AcquireAll(ms, glue)) == []
    decreases |ms|
  {
    if ms != [] {
      var head, rest := [Acquire(ms[0])], AcquireAll(ms[1..], glue);
      AcquireOrder(ms[1..], glue);
      AcquiredConcat(head, glue);
      AcquiredConcat(head + glue, rest);
      assert [ms[0]] + ms[1..] == ms;
    }
  }

  /** A release phase releases exactly `ms`, in order, and acquires nothing. */
  lemma {:induction false} ReleaseOrder(ms: seq<Mem>, glue: seq<Event>)
    requires Acquired(glue) == [] && Released(glue) == []
    ensures Released(ReleaseAll(ms, glue)) == ms && Acquired(ReleaseAll(ms, glue)) == []
    decreases |ms|
  {
    if ms != [] {
      var head, rest := [Release(ms[0])], ReleaseAll(ms[1..], glue);
      ReleaseOrder(ms[1..], glue);
      AcquiredConcat(head, glue);
      AcquiredConcat(head + glue, rest);
      assert [ms[0]] + ms[1..] == ms;
    }
  }

  /** In a bracketed frame the objects are released in exactly the order in
      which they were acquired, and nothing else is acquired or released. */
  lemma BracketOrder(pre: seq<Event>, ms: seq<Mem>, glue: seq<Event>, work: seq<Event>, post: seq<Event>)
    requires forall o :: Quiet(o, glue)
    requires forall i :: 0 <= i < |pre| ==> Neutral(pre[i])
    requires forall i :: 0 <= i < |work| ==> Neutral(work[i])
    requires forall i :: 0 <= i < |post| ==> Neutral(post[i])
    ensures Acquired(pre + AcquireAll(ms, glue) + work + ReleaseAll(ms, glue) + post) == ms
    ensures Released(pre + AcquireAll(ms, glue) + work + ReleaseAll(ms, glue) + post) == ms
  {
    var a := AcquireAll(ms, glue);
    var r := ReleaseAll(ms, glue);
    NeutralOrder(pre);
    NeutralOrder(work);
    NeutralOrder(post);
    assert Quiet(map[], glue);
    NeutralOrder(glue);
    AcquireOrder(ms, glue);
    ReleaseOrder(ms, glue);
    AcquiredConcat(pre, a);
    var t1 := pre + a;
    assert Acquired(t1) == ms && Released(t1) == [];
    AcquiredConcat(t1, work);
    var t2 := t1 + work;
    assert Acquired(t2) == ms && Released(t2) == [];
    AcquiredConcat(t2, r);
    var t3 := t2 + r;
    assert Acquired(t3) == ms && Released(t3) == ms;
    AcquiredConcat(t3, post);
  }

  // ---------------------------------------------------------------------
  // Kernel arguments

  /** The argument calls of `table` that succeed, in order, when `ok(a)` says
      whether the call for argument index `a` succeeds. */
  function ArgCalls(table: seq<Arg>, ok: nat -> bool): seq<Event>
    decreases |table|
  {
    if table == [] then []
    else ArgCalls(table[..|table| - 1], ok)
         + (if ok(table[|table| - 1].index) then [SetArg(table[|table| - 1])] else [])
  }

  /** The argument calls of `table` when every one succeeds. */
  function ArgEvents(table: seq<Arg>): seq<Event>
  {
    ArgCalls(table, a => true)
  }

  predicate AllSet(table: seq<Arg>, ok: nat -> bool)
  {
    forall i :: 0 <= i < |table| ==> ok(table[i].index)
  }

  lemma {:induction false} ArgCallsAllSet(table: seq<Arg>, ok: nat -> bool)
    requires AllSet(table, ok)
    ensures ArgCalls(table, ok) == ArgEvents(table)
    decreases |table|
  {
    if table != [] {
      ArgCallsAllSet(table[..|table| - 1], ok);
    }
  }

  /** Argument calls neither acquire nor release, and are allowed anywhere. */
  lemma {:induction false} ArgCallsQuiet(table: seq<Arg>, ok: nat -> bool)
    ensures forall i :: 0 <= i < |ArgCalls(table, ok)| ==> ArgCalls(table, ok)[i].SetArg?
    ensures forall o :: Quiet(o, ArgCalls(table, ok))
    decreases |table|
  {
    if table != [] {
      var front := table[..|table| - 1];
      var t := ArgCalls(table, ok);
      ArgCallsQuiet(front, ok);
      forall i | 0 <= i < |t| ensures t[i].SetArg? {
        if i < |ArgCalls(front, ok)| {
          assert t[i] == ArgCalls(front, ok)[i];
        }
      }
      forall o ensures Quiet(o, t) {
        forall i | 0 <= i < |t| ensures Neutral(t[i]) && Allowed(o, t[i]) {
          assert t[i].SetArg?;
        }
      }
    }
  }

  /** The argument loops of the programs: every entry of `table` is passed to
      clSetKernelArg in order and the error codes are OR-ed together, so a
      failure does not stop the later calls; the result says whether any
      failed. */
  method SetArgs(pool: ResourcePool, table: seq<Arg>, ok: nat -> bool) returns (failed: bool)
    requires pool.Valid()
    modifies pool
    ensures pool.Valid() && pool.owner == old(pool.owner)
    ensures pool.trace == old(pool.trace) + ArgCalls(table, ok)
    ensures failed <==> !AllSet(table, ok)
  {
    failed := false;
    for a := 0 to |table|
      invariant pool.Valid() && pool.owner == old(pool.owner)
      invariant pool.trace == old(pool.trace) + ArgCalls(table[..a], ok)
      invariant failed <==> !AllSet(table[..a], ok)
    {
      assert table[..a + 1][..a] == table[..a];
      if ok(table[a].index) {
        pool.Emit(SetArg(table[a]));
      } else {
        failed := true;
      }
    }
    assert table[..|table|] == table;
  }

  /** What the device answers to the fallible calls of one frame, which the
      model cannot compute: `transfer(i)` for the i-th acquire, write, read or
      release of the frame (counted from 0), `arg(a)` for clSetKernelArg of
      argument index `a`, and the status clEnqueueNDRangeKernel returns. */
  datatype Replies = Replies(transfer: nat -> bool, arg: nat -> bool, enqueue: int)

  // ---------------------------------------------------------------------
  // A straight run of checked calls

  /** How many of the `n` calls numbered from `base` succeed before the
      first failure. */
  function Reach(ok: nat -> bool, base: nat, n: nat): (r: nat)
    ensures r <= n
    ensures forall j :: base <= j < base + r ==> ok(j)
    ensures r < n ==> !ok(base + r)
    decreases n
  {
    if n == 0 || !ok(base) then 0 else 1 + Reach(ok, base + 1, n - 1)
  }

  /** The calls of `plan` that are made when each one's status is checked
      and the first failure returns: `ok(i)` says whether call i succeeds,
      counting from `base`, and a failed call leaves no trace. */
  function UpTo(plan: seq<Event>, ok: nat -> bool, base: nat): (t: seq<Event>)
    ensures |t| <= |plan| && t == plan[..|t|]
    ensures forall j :: base <= j < base + |t| ==> ok(j)
    ensures |t| < |plan| ==> !ok(base + |t|)
  {
    plan[..Reach(ok, base, |plan|)]
  }

  /** Every call of `plan` succeeds. */
  predicate Through(plan: seq<Event>, ok: nat -> bool, base: nat)
  {
    forall j :: base <= j < base + |plan| ==> ok(j)
  }

  /** The run stops exactly at the first failure. */
  lemma UpToAt(plan: seq<Event>, ok: nat -> bool, base: nat, j: nat)
    requires j <= |plan| && forall i :: base <= i < base + j ==> ok(i)
    requires j < |plan| ==> !ok(base + j)
    ensures UpTo(plan, ok, base) == plan[..j]
    ensures Through(plan, ok, base) <==> j == |plan|
  {
  }

  /** A plan that goes through is made in full. */
  lemma WentThrough(plan: seq<Event>, ok: nat -> bool, base: nat)
    requires Through(plan, ok, base)
    ensures UpTo(plan, ok, base) == plan
  {
    UpToAt(plan, ok, base, |plan|);
  }

  /** A run over two plans in a row. */
  lemma UpToConcat(p: seq<Event>, q: seq<Event>, ok: nat -> bool, base: nat)
    ensures UpTo(p + q, ok, base) == if Through(p, ok, base) then p + UpTo(q, ok, base + |p|) else UpTo(p, ok, base)
    ensures Through(p + q, ok, base) <==> Through(p, ok, base) && Through(q, ok, base + |p|)
  {
    var t := UpTo(p, ok, base);
    if Through(p, ok, base) {
      var u := UpTo(q, ok, base + |p|);
      assert (p + q)[..|p| + |u|] == p + u;
      assert forall i :: base <= i < base + |p| + |u| ==> ok(i) by {
        forall i | base <= i < base + |p| + |u|
          ensures ok(i)
        {
          if i >= base + |p| {
            assert base + |p| <= i < base + |p| + |u|;
          }
        }
      }
      UpToAt(p + q, ok, base, |p| + |u|);
    } else {
      assert |t| < |p|;
      assert (p + q)[..|t|] == t;
      UpToAt(p + q, ok, base, |t|);
    }
  }

  /** `t` is the run of `plan` from step `base`, and `done` says whether
      it went through. */
  predicate RunsAs(plan: seq<Event>, ok: nat -> bool, base: nat, t: seq<Event>, done: bool)
  {
    t == UpTo(plan, ok, base) && (done <==> Through(plan, ok, base))
  }

  /** Two plans in a row: the second starts only when the first went
      through. */
  lemma Stages2(a: seq<Event>, b: seq<Event>, x: seq<Event>, y: seq<Event>, pa: bool, pb: bool,
                ok: nat -> bool, base: nat)
    requires RunsAs(a, ok, base, x, pa) && RunsAs(b, ok, base + |a|, y, pb)
    ensures RunsAs(a + b, ok, base, if !pa then x else x + y, pa && pb)
  {
    UpToConcat(a, b, ok, base);
    if pa {
      UpToAt(a, ok, base, |a|);
    }
  }

  /** Three plans in a row, each starting only when the one before it went
      through. */
  lemma Stages3(a: seq<Event>, b: seq<Event>, c: seq<Event>, x: seq<Event>, y: seq<Event>, z: seq<Event>,
                pa: bool, pb: bool, pc: bool, ok: nat -> bool, base: nat)
    requires RunsAs(a, ok, base, x, pa) && RunsAs(b, ok, base + |a|, y, pb)
    requires RunsAs(c, ok, base + |a| + |b|, z, pc)
    ensures RunsAs(a + b + c, ok, base, if !pa then x else if !pb then x + y else x + y + z, pa && pb && pc)
  {
    Stages2(a, b, x, y, pa, pb, ok, base);
    Stages2(a + b, c, if !pa then x else x + y, z, pa && pb, pc, ok, base);
  }

  /** Three checked calls in a row, numbered from `base`. */
  function Steps3(e0: Event, e1: Event, e2: Event, ok: nat -> bool, base: nat): seq<Event>
  {
    if !ok(base) then [] else if !ok(base + 1) then [e0] else if !ok(base + 2) then [e0, e1] else [e0, e1, e2]
  }

  predicate All3(ok: nat -> bool, base: nat)
  {
    ok(base) && ok(base + 1) && ok(base + 2)
  }

  /** Two checked calls in a row, numbered from `base`. */
  function Steps2(e0: Event, e1: Event, ok: nat -> bool, base: nat): seq<Event>
  {
    if !ok(base) then [] else if !ok(base + 1) then [e0] else [e0, e1]
  }

  predicate All2(ok: nat -> bool, base: nat)
  {
    ok(base) && ok(base + 1)
  }

  /** The three-call chain is the run of its plan up to the first failure. */
  lemma Steps3IsUpTo(e0: Event, e1: Event, e2: Event, ok: nat -> bool, base: nat)
    ensures RunsAs([e0, e1, e2], ok, base, Steps3(e0, e1, e2, ok, base), All3(ok, base))
  {
    var plan := [e0, e1, e2];
    if !ok(base) {
      UpToAt(plan, ok, base, 0);
    } else if !ok(base + 1) {
      UpToAt(plan, ok, base, 1);
    } else if !ok(base + 2) {
      UpToAt(plan, ok, base, 2);
    } else {
      UpToAt(plan, ok, base, 3);
    }
  }

  /** The two-call chain is the run of its plan up to the first failure. */
  lemma Steps2IsUpTo(e0: Event, e1: Event, ok: nat -> bool, base: nat)
    ensures RunsAs([e0, e1], ok, base, Steps2(e0, e1, ok, base), All2(ok, base))
  {
    var plan := [e0, e1];
    if !ok(base) {
      UpToAt(plan, ok, base, 0);
    } else if !ok(base + 1) {
      UpToAt(plan, ok, base, 1);
    } else {
      UpToAt(plan, ok, base, 2);
    }
  }

  /** Calls that neither need nor change any ownership. */
  predicate Bookkeeping(e: Event)
  {
    e.Flush? || e.Wait? || e.Create? || e.Free? || e.SetArg? || e.HostAlloc? || e.HostFree?
  }

  // ---------------------------------------------------------------------
  // Handles and the lifetime of what they name

  /** What a handle variable (a cl_mem or a host pointer) holds: null, a live
      object, or an object already released or freed through it. */
  datatype Handle = Null | Live | Stale

  /** The handle after the object behind it is released without the variable
      being reset. */
  function Dangle(h: Handle): Handle
  {
    if h == Null then Null else Stale
  }

  /** A release or free through handle h: `if (h) release(h)`, or an
      unconditional clReleaseMemObject or free, which does nothing to a null
      handle. */
  function ReleaseThrough(h: Handle, e: Event): seq<Event>
  {
    if h == Null then [] else [e]
  }

  /** Whether the object made by `alloc` and given back by `free` is held
      after call e, if `held` before it. */
  function Step(e: Event, held: bool, alloc: Event, free: Event): bool
  {
    if e == alloc then true else if e == free then false else held
  }

  /** Whether the object is held after the calls of t, starting from `held`. */
  function HeldAfter(t: seq<Event>, held: bool, alloc: Event, free: Event): bool
    decreases |t|
  {
    if t == [] then held else HeldAfter(t[1..], Step(t[0], held, alloc, free), alloc, free)
  }

  /** Whether the calls of t, starting from `held`, give the object back while
      it is not held: a double free, or a release of a released object. */
  function DoubleFree(t: seq<Event>, held: bool, alloc: Event, free: Event): bool
    decreases |t|
  {
    if t == [] then false
    else Frees(t[0], held, alloc, free) || DoubleFree(t[1..], Step(t[0], held, alloc, free), alloc, free)
  }

  /** Call e gives the object back while it is not held. */
  predicate Frees(e: Event, held: bool, alloc: Event, free: Event)
  {
    e == free && e != alloc && !held
  }

  /** Calls that neither make nor give back the object change nothing about
      it. */
  lemma {:induction false} UntouchedLifetime(t: seq<Event>, held: bool, alloc: Event, free: Event)
    requires alloc !in t && free !in t
    ensures HeldAfter(t, held, alloc, free) == held && !DoubleFree(t, held, alloc, free)
    decreases |t|
  {
    if t != [] {
      assert t[0] in t;
      assert forall e | e in t[1..] :: e in t;
      UntouchedLifetime(t[1..], held, alloc, free);
    }
  }

  /** One call in front of a run: its own effect, then the run's. */
  lemma Unfold(e: Event, u: seq<Event>, held: bool, alloc: Event, free: Event)
    ensures HeldAfter([e] + u, held, alloc, free) == HeldAfter(u, Step(e, held, alloc, free), alloc, free)
    ensures DoubleFree([e] + u, held, alloc, free)
            == (Frees(e, held, alloc, free) || DoubleFree(u, Step(e, held, alloc, free), alloc, free))
  {
    assert ([e] + u)[0] == e && ([e] + u)[1..] == u;
  }

  /** Whether the object is held after two runs of calls is decided by the
      first run, carried into the second. */
  lemma {:induction false} HeldConcat(s: seq<Event>, t: seq<Event>, held: bool, alloc: Event, free: Event)
    ensures HeldAfter(s + t, held, alloc, free) == HeldAfter(t, HeldAfter(s, held, alloc, free), alloc, free)
    decreases |s|
  {
    if s == [] {
      assert s + t == t;
    } else {
      var next := Step(s[0], held, alloc, free);
      assert s == [s[0]] + s[1..] && s + t == [s[0]] + (s[1..] + t);
      Unfold(s[0], s[1..], held, alloc, free);
      Unfold(s[0], s[1..] + t, held, alloc, free);
      HeldConcat(s[1..], t, next, alloc, free);
    }
  }

  /** Two runs of calls free the object twice exactly when the first does, or
      the second does from where the first leaves it. */
  lemma {:induction false} DoubleFreeConcat(s: seq<Event>, t: seq<Event>, held: bool, alloc: Event, free: Event)
    ensures DoubleFree(s + t, held, alloc, free)
            == (DoubleFree(s, held, alloc, free) || DoubleFree(t, HeldAfter(s, held, alloc, free), alloc, free))
    decreases |s|
  {
    if s == [] {
      assert s + t == t;
    } else {
      var next := Step(s[0], held, alloc, free);
      assert s == [s[0]] + s[1..] && s + t == [s[0]] + (s[1..] + t);
      Unfold(s[0], s[1..], held, alloc, free);
      Unfold(s[0], s[1..] + t, held, alloc, free);
      DoubleFreeConcat(s[1..], t, next, alloc, free);
    }
  }

  /** A run that gives the object back, then gives it back again with no
      remaking between, frees it twice, whatever came before. */
  lemma FreedAgain(a: seq<Event>, b: seq<Event>, c: seq<Event>, held: bool, alloc: Event, free: Event)
    requires alloc != free && alloc !in b && free !in b
    ensures DoubleFree(a + [free] + b + [free] + c, held, alloc, free)
  {
    var h := HeldAfter(a, held, alloc, free);
    DoubleFreeConcat(a, [free] + b + [free] + c, held, alloc, free);
    assert [free] + b + [free] + c == [free] + (b + [free] + c);
    assert a + [free] + b + [free] + c == a + ([free] + b + [free] + c);
    DoubleFreeConcat([free], b + [free] + c, h, alloc, free);
    DoubleFreeConcat(b, [free] + c, false, alloc, free);
    assert b + [free] + c == b + ([free] + c);
    UntouchedLifetime(b, false, alloc, free);
  }

  /** A run from a held object that gives it back once and then makes it
      again, touching it nowhere else, never frees it twice. */
  lemma FreedThenRemade(a: seq<Event>, b: seq<Event>, c: seq<Event>, alloc: Event, free: Event)
    requires alloc != free
    requires alloc !in a && free !in a && alloc !in b && free !in b && alloc !in c && free !in c
    ensures !DoubleFree(a + [free] + b + [alloc] + c, true, alloc, free)
  {
    assert a + [free] + b + [alloc] + c == a + ([free] + (b + ([alloc] + c)));
    UntouchedLifetime(a, true, alloc, free);
    DoubleFreeConcat(a, [free] + (b + ([alloc] + c)), true, alloc, free);
    DoubleFreeConcat([free], b + ([alloc] + c), true, alloc, free);
    UntouchedLifetime(b, false, alloc, free);
    DoubleFreeConcat(b, [alloc] + c, false, alloc, free);
    DoubleFreeConcat([alloc], c, false, alloc, free);
    UntouchedLifetime(c, true, alloc, free);
  }

  // ---------------------------------------------------------------------
  // The device side of a program

  lemma AppendAssoc<T>(a: seq<T>, b: seq<T>, c: seq<T>)
    ensures a + b + c == a + (b + c)
  {
  }

  /** The device side of one program: the history of GL/CL calls that
      succeeded, and who holds each GL-shared object. Everything here is ghost:
      it is what the calls mean, not data the program keeps. */
  class ResourcePool {
    ghost const initial: Ownership
    ghost var trace: seq<Event>
    ghost var owner: Ownership
    /** states[i] is who held what just before trace[i]; the last is `owner`. */
    ghost var states: seq<Ownership>

    /** Every recorded call was allowed where it happened, and `owner` is
        where the calls have led. */
    ghost predicate Valid()
      reads this
    {
      |states| == |trace| + 1 && states[0] == initial && states[|trace|] == owner
      && owner.Keys == initial.Keys
      && forall i :: 0 <= i < |trace| ==> Allowed(states[i], trace[i]) && states[i + 1] == Apply(states[i], trace[i])
    }

    /** The whole history is a legal hand-off sequence. */
    lemma HistoryLegal()
      requires Valid()
      ensures Legal(initial, trace) && owner == Replay(initial, trace)
    {
      for k := 0 to |trace|
        invariant Legal(initial, trace[..k]) && Replay(initial, trace[..k]) == states[k]
      {
        LegalSnoc(initial, trace[..k], trace[k]);
        assert trace[..k + 1] == trace[..k] + [trace[k]];
      }
      assert trace[..|trace|] == trace;
    }

    /** A pool whose GL-shared objects are `shared`, all with the drawing side. */
    constructor (shared: set<Mem>)
      ensures Valid() && trace == [] && Settled(owner) && owner.Keys == shared
    {
      initial := map m | m in shared :: Draw;
      trace := [];
      owner := map m | m in shared :: Draw;
      states := [map m | m in shared :: Draw];
    }

    /** Record a call that succeeded. */
    ghost method Emit(e: Event)
      requires Valid() && Allowed(owner, e)
      modifies this
      ensures Valid()
      ensures trace == old(trace) + [e] && owner == Apply(old(owner), e)
    {
      trace := trace + [e];
      owner := Apply(owner, e);
      states := states + [owner];
    }

    /** Record a release or free through handle h: nothing when h is null. */
    ghost method EmitThrough(h: Handle, e: Event)
      requires Valid() && Bookkeeping(e)
      modifies this
      ensures Valid() && owner == old(owner)
      ensures trace == old(trace) + ReleaseThrough(h, e)
    {
      if h != Null {
        Emit(e);
      }
    }
  }
}
