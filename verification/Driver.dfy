/** The driver's call of the executor: what an execution leaves on the record
    is what the life cycle expects an execution to return. */
module Driver {
  import opened Basics
  import opened Pipeline
  import Lifecycle
  import RegionHash
  import Schedules
  import Transfer
  import Worlds

  /** The record's order describes the executor's job. */
  predicate Describes(o: Lifecycle.Order, job: Job, mode: RegionHash.Mode) {
    && o.scheduled == job.plan.total && o.chunks == job.plan.chunkCount
    && (o.verify <==> mode != RegionHash.NoVerification)
  }

  /** The record when the execution has returned. */
  function AfterExecution(t: Lifecycle.Rec, o: Transfer.Outcome): Lifecycle.Rec {
    t.(phase := Lifecycle.AtTerminal,
       state := if o.verifying then Lifecycle.Verifying else t.state,
       report := Lifecycle.Report(o.error, o.bytesCompleted, o.bytesVerified, o.error.None? && o.bytesVerified > 0))
  }

  /** Runs the executor for a record that is executing. The record goes through
      steps of the life cycle: to verifying if the copy was finished, then to
      its report. Equal digests on the report are equal digests of the two
      regions. A cancellation is only seen when it was requested. */
  method Execute(t: Lifecycle.Rec, job: Job, m0: Machine, source: Transfer.Access, dest: Transfer.Access,
                 mode: RegionHash.Mode, sticky: bool, reserved: bool, backendKnown: bool, w: Worlds.World)
    returns (t': Lifecycle.Rec, o: Transfer.Outcome)
    requires Ready(job) && Fresh(job, m0) && Describes(t.order, job, mode)
    requires t.phase == Lifecycle.Executing && t.state == Lifecycle.Active
    ensures t' == AfterExecution(t, o)
    ensures Transfer.Settled(job, m0, source, dest, mode, sticky, reserved, backendKnown, w, o)
    ensures var mid := if o.verifying then t.(state := Lifecycle.Verifying) else t;
      && (o.verifying ==> Lifecycle.Acts(t, mid))
      && (o.error != Some(Cancellation) || t.cancel ==> Lifecycle.Acts(mid, t'))
    ensures t'.report.digestsEqual ==> Transfer.Verified(job, o.machine.dst, source, dest, mode)
    ensures t'.report.error.None? && Schedules.Reliable(job, m0, sticky) ==> o.machine.dst == PlainCopy(job)
  {
    o := Transfer.RunTransfer(job, m0, source, dest, mode, sticky, reserved, backendKnown, w);
    t' := AfterExecution(t, o);
    ghost var mid := if o.verifying then t.(state := Lifecycle.Verifying) else t;
    assert t' == mid.(phase := Lifecycle.AtTerminal, report := t'.report);
    if o.verifying { assert Lifecycle.Executes(t, mid); }
    if o.error != Some(Cancellation) || t.cancel { assert Lifecycle.Returns(mid, t'.report); }
  }
}
