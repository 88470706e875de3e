/** `Element`: the Enabled / Disabled / Archived lifecycle mixed into every
    configuration entity, and the guard that gates their updates. */
module Element {
  import opened Validation
  import opened ElementStatuses

  const ELEMENT_NOT_ENABLED := "ELEMENT_NOT_ENABLED"
  const CANNOT_CHANGE_STATUS := "CANNOT_CHANGE_STATUS"
  const CANNOT_CHANGE_FROM_ARCHIVED := "CANNOT_CHANGE_FROM_ARCHIVED"

  /** The status a freshly created element has. */
  const InitialStatus: ElementStatus := Enabled

  /** A new element starts Enabled: it accepts updates, can be disabled or
      archived, and enabling it again is refused as no change. */
  lemma NewElementIsUpdatable()
    ensures ValidateEnable(InitialStatus).Ok?
    ensures Disable(InitialStatus).outcome.Ok? && Archive(InitialStatus).outcome.Ok?
    ensures Enable(InitialStatus).outcome.HasError("newStatus", CANNOT_CHANGE_STATUS)
  {
  }

  /** `ValidateEnable`: only an Enabled element may be updated; anything else
      is reported on the "Status" field. */
  function ValidateEnable(status: ElementStatus): (r: Outcome)
    ensures r.Ok? <==> status == Enabled
    ensures r.Fail? ==> r.errors == [FieldError("Status", ELEMENT_NOT_ENABLED)]
    ensures r.HasErrorFor("Status") <==> status != Enabled
  {
    Check("Status", status == Enabled, ELEMENT_NOT_ENABLED)
  }

  /** `ValidateStatus`: a change must go somewhere new and may not leave
      Archived; both errors are reported when both apply. */
  function ValidateStatus(current: ElementStatus, target: ElementStatus): (r: Outcome)
    ensures r.Ok? <==> target != current && current != Archived
    ensures r.HasError("newStatus", CANNOT_CHANGE_STATUS) <==> target == current
    ensures r.HasError("currentStatus", CANNOT_CHANGE_FROM_ARCHIVED) <==> current == Archived
    ensures forall e :: e in r.Errors() ==> e.context in {"newStatus", "currentStatus"}
  {
    Check("newStatus", target != current, CANNOT_CHANGE_STATUS)
      .And(Check("currentStatus", current != Archived, CANNOT_CHANGE_FROM_ARCHIVED))
  }

  /** The body shared by `Enable`, `Disable` and `Archive`. */
  function MoveTo(current: ElementStatus, target: ElementStatus): Applied<ElementStatus> {
    var o := ValidateStatus(current, target);
    Applied(o, if o.Ok? then target else current)
  }

  function Enable(status: ElementStatus): (r: Applied<ElementStatus>)
    ensures r.outcome.Ok? <==> status == Disabled
    ensures r.state == if r.outcome.Ok? then Enabled else status
    ensures r.outcome.HasError("newStatus", CANNOT_CHANGE_STATUS) <==> status == Enabled
  {
    MoveTo(status, Enabled)
  }

  function Disable(status: ElementStatus): (r: Applied<ElementStatus>)
    ensures r.outcome.Ok? <==> status == Enabled
    ensures r.state == if r.outcome.Ok? then Disabled else status
    ensures r.outcome.HasError("newStatus", CANNOT_CHANGE_STATUS) <==> status == Disabled
  {
    MoveTo(status, Disabled)
  }

  function Archive(status: ElementStatus): (r: Applied<ElementStatus>)
    ensures r.outcome.Ok? <==> status != Archived
    ensures r.state == if r.outcome.Ok? then Archived else status
    ensures r.outcome.HasError("currentStatus", CANNOT_CHANGE_FROM_ARCHIVED) <==> status == Archived
  {
    MoveTo(status, Archived)
  }

  /** The three status operations, as a caller may issue them in sequence. */
  datatype StatusOp = EnableOp | DisableOp | ArchiveOp {
    function Target(): ElementStatus {
      match this
      case EnableOp => Enabled
      case DisableOp => Disabled
      case ArchiveOp => Archived
    }

    function Apply(status: ElementStatus): Applied<ElementStatus> {
      match this
      case EnableOp => Enable(status)
      case DisableOp => Disable(status)
      case ArchiveOp => Archive(status)
    }
  }

  /** Each operation succeeds exactly when its target differs from the current
      status and the current status is not Archived; it then moves to the
      target, and on failure leaves the status as it was. */
  lemma ApplySpec(op: StatusOp, status: ElementStatus)
    ensures op.Apply(status).outcome.Ok? <==> op.Target() != status && status != Archived
    ensures op.Apply(status).state == if op.Apply(status).outcome.Ok? then op.Target() else status
  {
  }

  /** The status after issuing `ops` in order; failed operations change nothing. */
  function Run(status: ElementStatus, ops: seq<StatusOp>): ElementStatus
    decreases |ops|
  {
    if |ops| == 0 then status else Run(ops[0].Apply(status).state, ops[1..])
  }

  /** Archived is absorbing: whatever is issued afterwards fails and the
      element stays Archived. */
  lemma {:induction false} ArchivedIsAbsorbing(ops: seq<StatusOp>)
    ensures Run(Archived, ops) == Archived
    ensures forall i :: 0 <= i < |ops| ==> ops[i].Apply(Archived).outcome.Fail?
    decreases |ops|
  {
    if |ops| > 0 {
      assert ops[0].Apply(Archived).state == Archived;
      ArchivedIsAbsorbing(ops[1..]);
      assert forall i :: 1 <= i < |ops| ==> ops[i] == ops[1..][i - 1];
    }
  }

  /** Once an element has been archived by any operation sequence, it never
      leaves Archived. */
  lemma {:induction false} ArchiveIsFinal(status: ElementStatus, before: seq<StatusOp>, after: seq<StatusOp>)
    requires Run(status, before) == Archived
    ensures Run(status, before + after) == Archived
    decreases |before|
  {
    if |before| == 0 {
      assert before + after == after;
      ArchivedIsAbsorbing(after);
    } else {
      var next := before[0].Apply(status).state;
      assert (before + after)[0] == before[0];
      assert (before + after)[1..] == before[1..] + after;
      assert Run(status, before) == Run(next, before[1..]);
      ArchiveIsFinal(next, before[1..], after);
      assert Run(status, before + after) == Run(next, before[1..] + after);
    }
  }

  /** Disabling twice in a row: the second call is rejected as a no-op change. */
  lemma DisableTwiceFails(status: ElementStatus)
    requires Disable(status).outcome.Ok?
    ensures Disable(Disable(status).state).outcome.HasError("newStatus", CANNOT_CHANGE_STATUS)
    ensures Disable(Disable(status).state).state == Disabled
  {
  }

  /** Archiving and then enabling fails with CANNOT_CHANGE_FROM_ARCHIVED;
      enabling an Enabled element fails with CANNOT_CHANGE_STATUS. */
  lemma ArchiveThenEnableFails(status: ElementStatus)
    ensures Enable(Archive(status).state).outcome.HasError("currentStatus", CANNOT_CHANGE_FROM_ARCHIVED)
    ensures Enable(Enabled).outcome.HasError("newStatus", CANNOT_CHANGE_STATUS)
  {
  }
}
