/** One whole execution: the early exits, the pipelined copy, the return of the
    staging buffers and the verification. */
module Transfer {
  import opened Basics
  import opened Executor
  import opened Chunking
  import opened Pipeline
  import opened Schedules
  import opened Worlds
  import Crc32c
  import RegionHash
  import Sha256

  /** How an endpoint is opened; its bytes are those of the job. */
  datatype Access = Access(kind: RegionHash.Kind, descOffset: nat)

  function View(a: Access, content: Bytes): RegionHash.Endpoint {
    RegionHash.Endpoint(a.kind, content, a.descOffset)
  }

  /** Hashing reads the bytes that copying moves. */
  predicate Aligned(a: Access) { a.kind != RegionHash.File || a.descOffset == 0 }

  /** What an execution leaves. `verifying` says that the record reached that
      state; `busy` that some queued copy still read a staging slot when the
      slots went back to their pools. */
  datatype Outcome = Outcome(
    machine: Machine,
    error: Option<Category>,
    bytesCompleted: nat,
    bytesVerified: nat,
    verifying: bool,
    busy: bool)

  /** What hashing the source region of the transfer gives. */
  ghost function SourceDigest(job: Job, source: Access, mode: RegionHash.Mode): Result<Bytes> {
    RegionHash.DigestOf(RegionHash.Digester(mode),
                        RegionHash.RegionBytes(View(source, job.src), job.plan.sourceOffset, job.plan.total))
  }

  ghost function DestDigest(job: Job, dst: Bytes, dest: Access, mode: RegionHash.Mode): Result<Bytes> {
    RegionHash.DigestOf(RegionHash.Digester(mode),
                        RegionHash.RegionBytes(View(dest, dst), job.plan.destOffset, job.plan.total))
  }

  /** Both regions can be read and have the same digest. */
  ghost predicate Verified(job: Job, dst: Bytes, source: Access, dest: Access, mode: RegionHash.Mode) {
    SourceDigest(job, source, mode).Ok? && SourceDigest(job, source, mode) == DestDigest(job, dst, dest, mode)
  }

  method Compare(es: Result<Bytes>, ed: Result<Bytes>) returns (error: Option<Category>)
    ensures error.None? <==> es.Ok? && es == ed
    ensures error.Some? ==> error.value == if es.Err? then es.error else if ed.Err? then ed.error else IntegrityFailure
  {
    if es.Err? { return Some(es.error); }
    if ed.Err? { return Some(ed.error); }
    if es.value != ed.value { return Some(IntegrityFailure); }
    return None;
  }

  method Verify(job: Job, dst: Bytes, source: Access, dest: Access, mode: RegionHash.Mode)
    returns (error: Option<Category>)
    requires Ready(job) && |dst| == |job.dst0| && job.plan.total > 0 && mode != RegionHash.NoVerification
    ensures error.None? <==> Verified(job, dst, source, dest, mode)
    ensures error.Some? ==> error.value == IntegrityFailure
  {
    var es := RegionHash.HashEndpointRegion(View(source, job.src), job.plan.sourceOffset, job.plan.total, mode);
    var ed := RegionHash.HashEndpointRegion(View(dest, dst), job.plan.destOffset, job.plan.total, mode);
    error := Compare(es, ed);
  }

  /** A finished plain copy always verifies. */
  lemma PlainCopyVerifies(job: Job, source: Access, dest: Access, mode: RegionHash.Mode)
    requires Ready(job) && Aligned(source) && Aligned(dest)
    ensures Verified(job, PlainCopy(job), source, dest, mode)
  {
    SameRegions(job, source, dest);
  }

  lemma SameRegions(job: Job, source: Access, dest: Access)
    requires Ready(job) && Aligned(source) && Aligned(dest)
    ensures RegionHash.RegionBytes(View(source, job.src), job.plan.sourceOffset, job.plan.total) == Some(Payload(job))
    ensures RegionHash.RegionBytes(View(dest, PlainCopy(job)), job.plan.destOffset, job.plan.total)
      == Some(Payload(job))
  {
    var base := job.plan.destOffset;
    assert PlainCopy(job)[base..base + job.plan.total] == Payload(job);
  }

  /** The region that the transfer was to fill. */
  function Received(job: Job, dst: Bytes): Bytes
    requires Ready(job) && |dst| == |job.dst0|
  {
    dst[job.plan.destOffset..job.plan.destOffset + job.plan.total]
  }

  lemma VerifiedIsSame(job: Job, dst: Bytes, source: Access, dest: Access, mode: RegionHash.Mode)
    requires Ready(job) && |dst| == |job.dst0| && Aligned(source) && Aligned(dest)
    ensures Verified(job, dst, source, dest, mode) <==>
      RegionHash.RegionDigest(mode, Payload(job)) == RegionHash.RegionDigest(mode, Received(job, dst))
  {
    assert RegionHash.RegionBytes(View(source, job.src), job.plan.sourceOffset, job.plan.total) == Some(Payload(job));
    assert RegionHash.RegionBytes(View(dest, dst), job.plan.destOffset, job.plan.total) == Some(Received(job, dst));
  }

  /** The regions differ, and only within 32 consecutive bits. */
  ghost predicate Damaged(a: Bytes, b: Bytes) {
    a != b && |a| == |b| && exists at: nat :: Crc32c.WithinBurst(Crc32c.MessageBits(a), Crc32c.MessageBits(b), at)
  }

  /** In CRC mode verification accepts a destination exactly if it has the
      CRC32C of the source; in particular it refuses every destination that
      differs from the source, and only within 32 consecutive bits. */
  lemma CrcVerifies(job: Job, dst: Bytes, source: Access, dest: Access)
    requires Ready(job) && |dst| == |job.dst0| && Aligned(source) && Aligned(dest) && job.plan.total > 0
    ensures Verified(job, dst, source, dest, RegionHash.Crc) <==>
      Crc32c.Crc(Payload(job)) == Crc32c.Crc(Received(job, dst))
    ensures Damaged(Payload(job), Received(job, dst)) ==> !Verified(job, dst, source, dest, RegionHash.Crc)
  {
    var a, b := Payload(job), Received(job, dst);
    VerifiedIsSame(job, dst, source, dest, RegionHash.Crc);
    RegionHash.SameDigestIffSameCrc(a, b);
    if Damaged(a, b) {
      var at: nat :| Crc32c.WithinBurst(Crc32c.MessageBits(a), Crc32c.MessageBits(b), at);
      Crc32c.BurstDetected(a, b, at);
    }
  }

  /** In SHA mode verification compares the SHA-256 digests. */
  lemma ShaVerifies(job: Job, dst: Bytes, source: Access, dest: Access)
    requires Ready(job) && |dst| == |job.dst0| && Aligned(source) && Aligned(dest)
    requires 0 < 8 * job.plan.total < TWO64
    ensures Verified(job, dst, source, dest, RegionHash.Sha) <==>
      Sha256.Sha(Payload(job)) == Sha256.Sha(Received(job, dst))
  {
    VerifiedIsSame(job, dst, source, dest, RegionHash.Sha);
    RegionHash.RegionDigestIsSha(Payload(job));
    RegionHash.RegionDigestIsSha(Received(job, dst));
  }

  method AnyPending(m: Machine) returns (busy: bool)
    ensures busy <==> !Quiet(m)
  {
    for k := 0 to |m.streams|
      invariant forall j :: 0 <= j < k ==> m.streams[j] == []
    {
      if m.streams[k] != [] { return true; }
    }
    return false;
  }

  /** The copying begins: there are chunks, the rings are there and the last
      backend is known. */
  predicate Starts(job: Job, reserved: bool, backendKnown: bool) {
    job.plan.chunkCount > 0 && (job.legs < 2 || reserved) && backendKnown
  }

  /** The copy is verified. */
  predicate Checks(job: Job, mode: RegionHash.Mode) { mode != RegionHash.NoVerification && job.plan.total > 0 }

  /** The copy and its verification, in every world. */
  method CopyAndVerify(job: Job, m0: Machine, source: Access, dest: Access, mode: RegionHash.Mode, sticky: bool,
                       w: World)
    returns (o: Outcome)
    requires Ready(job) && Fresh(job, m0)
    ensures Inv(job, o.machine, job.plan.total, false)
    // The copying stops at the first turn that does not get through, or in the
    // drain.
    ensures forall ci: nat :: FirstHalt(job, w, ci) ==>
      o.error == ChunkError(job, w, ci) && o.bytesCompleted == Start(job.plan, ci)
    ensures NoHalt(job, w) ==> o.bytesCompleted == job.plan.total
    ensures NoHalt(job, w) && !NoReport(job, m0, sticky, w) ==> o.error == Some(BackendFailure)
    ensures o.error.None? ==> o.verifying
    // Otherwise verification is reached, and alone decides.
    ensures o.verifying <==> NoHalt(job, w) && NoReport(job, m0, sticky, w)
    ensures o.verifying ==>
      o.error == if Checks(job, mode) && !Verified(job, o.machine.dst, source, dest, mode) then Some(IntegrityFailure)
                 else None
    ensures o.bytesVerified == if o.verifying && o.error.None? && Checks(job, mode) then job.plan.total else 0
    // Success means the plain copy, and such a copy never fails verification.
    ensures o.verifying && Reliable(job, m0, sticky) ==> o.machine.dst == PlainCopy(job)
    ensures o.verifying && Reliable(job, m0, sticky) && Aligned(source) && Aligned(dest) ==> o.error.None?
    // Slots never go back while a copy reads them when the copying gets through,
    // when the route is not overlapped or when there is at most one chunk.
    ensures o.verifying || m0.streams == [] || job.plan.chunkCount <= 1 ==> !o.busy
    ensures o.error == Some(Cancellation) <==> FlagSeen(job, w)
  {
    var m, error, completed, chunksDone := MoveChunks(job, m0, sticky, w);
    var busy := AnyPending(m);
    if error.Some? {
      return Outcome(m, error, completed, 0, false, busy);
    }
    var verified;
    error, verified := VerifyCopy(job, m.dst, source, dest, mode);
    o := Outcome(m, error, completed, verified, true, busy);
  }

  /** The verification of a finished copy. */
  method VerifyCopy(job: Job, dst: Bytes, source: Access, dest: Access, mode: RegionHash.Mode)
    returns (error: Option<Category>, verified: nat)
    requires Ready(job) && |dst| == |job.dst0|
    ensures error ==
      if Checks(job, mode) && !Verified(job, dst, source, dest, mode) then Some(IntegrityFailure) else None
    ensures verified == if error.None? && Checks(job, mode) then job.plan.total else 0
    ensures dst == PlainCopy(job) && Aligned(source) && Aligned(dest) ==> error.None?
  {
    error, verified := None, 0;
    if mode != RegionHash.NoVerification && job.plan.total > 0 {
      error := Verify(job, dst, source, dest, mode);
      if Aligned(source) && Aligned(dest) { PlainCopyVerifies(job, source, dest, mode); }
      if error.None? { verified := job.plan.total; }
    }
  }

  /** How a transfer ends: verification is reached exactly if the copying starts
      and gets through; the transfer succeeds exactly if there is nothing to do,
      or if it is reached and finds nothing wrong; and it is cancelled exactly if
      the flag was seen while copying. */
  ghost predicate Settled(job: Job, m0: Machine, source: Access, dest: Access, mode: RegionHash.Mode, sticky: bool,
                          reserved: bool, backendKnown: bool, w: World, o: Outcome)
    requires Ready(job)
  {
    && (o.verifying <==> Starts(job, reserved, backendKnown) && NoHalt(job, w) && NoReport(job, m0, sticky, w))
    && (o.error.None? <==>
          || job.plan.chunkCount == 0
          || (o.verifying && (Checks(job, mode) ==> Verified(job, o.machine.dst, source, dest, mode))))
    && (o.error == Some(Cancellation) <==> Starts(job, reserved, backendKnown) && FlagSeen(job, w))
  }

  /** The whole execution, in every world. */
  method RunTransfer(job: Job, m0: Machine, source: Access, dest: Access, mode: RegionHash.Mode, sticky: bool,
                     reserved: bool, backendKnown: bool, w: World)
    returns (o: Outcome)
    requires Ready(job) && Fresh(job, m0)
    // Whatever happens, a destination byte is its old value or the wanted one.
    ensures Shape(job, o.machine) && Clean(job, o.machine.dst, job.plan.total)
    // Nothing to move: done at once, without reaching verification.
    ensures job.plan.chunkCount == 0 ==> o == Outcome(m0, None, job.plan.total, 0, false, false)
    ensures job.plan.chunkCount > 0 && job.legs >= 2 && !reserved ==>
      o == Outcome(m0, Some(ResourceExhausted), 0, 0, false, false)
    ensures job.plan.chunkCount > 0 && (job.legs < 2 || reserved) && !backendKnown ==>
      o == Outcome(m0, Some(UnsupportedPath), 0, 0, false, false)
    // The copying stops at the first turn that does not get through, or in the
    // drain.
    ensures Starts(job, reserved, backendKnown) ==> forall ci: nat :: FirstHalt(job, w, ci) ==>
      o.error == ChunkError(job, w, ci) && o.bytesCompleted == Start(job.plan, ci)
    ensures Starts(job, reserved, backendKnown) && NoHalt(job, w) && !NoReport(job, m0, sticky, w) ==>
      o.error == Some(BackendFailure)
    // Otherwise verification is reached, and alone decides.
    ensures o.verifying ==>
      o.error == if Checks(job, mode) && !Verified(job, o.machine.dst, source, dest, mode) then Some(IntegrityFailure)
                 else None
    ensures o.error.None? ==> o.bytesCompleted == job.plan.total && (o.verifying || job.plan.chunkCount == 0)
    ensures o.bytesVerified == if o.verifying && o.error.None? && Checks(job, mode) then job.plan.total else 0
    // Success means the plain copy, and such a copy never fails verification.
    ensures o.verifying && Reliable(job, m0, sticky) ==> o.machine.dst == PlainCopy(job)
    ensures o.verifying && Reliable(job, m0, sticky) && Aligned(source) && Aligned(dest) ==> o.error.None?
    // Slots never go back while a copy reads them when the copying gets through,
    // when the route is not overlapped or when there is at most one chunk.
    ensures o.error.None? || o.verifying || m0.streams == [] || job.plan.chunkCount <= 1 ==> !o.busy
    ensures Settled(job, m0, source, dest, mode, sticky, reserved, backendKnown, w, o)
  {
    StillClean(job, m0);
    if job.plan.chunkCount == 0 {
      NothingMoved(job, m0);
      return Outcome(m0, None, job.plan.total, 0, false, false);
    }
    if job.legs >= 2 && !reserved {
      return Outcome(m0, Some(ResourceExhausted), 0, 0, false, false);
    }
    if !backendKnown {
      return Outcome(m0, Some(UnsupportedPath), 0, 0, false, false);
    }
    o := CopyAndVerify(job, m0, source, dest, mode, sticky, w);
    SomeOrNone(job, w);
  }

  /** Some turn is the first that does not get through, or none is. */
  lemma SomeOrNone(job: Job, w: World)
    ensures NoHalt(job, w) || exists ci: nat :: FirstHalt(job, w, ci)
  {
    var n := 0;
    while n < job.plan.chunkCount && ChunkError(job, w, n).None?
      invariant n <= job.plan.chunkCount && forall i :: 0 <= i < n ==> ChunkError(job, w, i).None?
    {
      n := n + 1;
    }
    if n < job.plan.chunkCount { assert FirstHalt(job, w, n); }
  }

  lemma StillClean(job: Job, m: Machine)
    requires Ready(job) && Fresh(job, m)
    ensures Clean(job, m.dst, job.plan.total)
  {
    forall x | 0 <= x < |m.dst| ensures Kept(job, m.dst, x) {}
  }

  lemma NothingMoved(job: Job, m: Machine)
    requires Ready(job) && Fresh(job, m) && job.plan.chunkCount == 0
    ensures Clean(job, m.dst, job.plan.total) && m.dst == PlainCopy(job) && job.plan.total == 0
  {
    StillClean(job, m);
  }
}
