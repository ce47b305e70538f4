// The persistent job table (cloud/internal/job/store.go), one row per job id.
// Every statement may fail without effect; the caller passes in whether it does.
module Store {
  import opened Options
  import opened JobModel

  type Rows = map<JobId, Job>

  datatype StoreError = Invalid(fault: JobError) | NotFound | BadTransition | BadAttempt | Unavailable

  datatype Fetched = Found(job: Job) | Missed(error: StoreError)

  // An UPDATE statement whose WHERE clause matches no row succeeds and changes nothing.
  function WithStatus(rows: Rows, id: JobId, status: Status): Rows {
    if id in rows then rows[id := rows[id].(status := status)] else rows
  }

  function WithOwner(rows: Rows, id: JobId, owner: AgentId, lease: string): Rows {
    if id in rows then rows[id := rows[id].(owner := owner, lease := lease)] else rows
  }

  function WithAttempt(rows: Rows, id: JobId, attempt: int): Rows {
    if id in rows then rows[id := rows[id].(attempt := attempt)] else rows
  }

  function WithOutput(rows: Rows, id: JobId, key: string, prefix: string): Rows {
    if id in rows then rows[id := rows[id].(outputKey := key, outputPrefix := prefix)] else rows
  }

  function WithStreams(rows: Rows, id: JobId, stdout: string, stderr: string): Rows {
    if id in rows then rows[id := rows[id].(stdout := stdout, stderr := stderr)] else rows
  }

  function WithMessage(rows: Rows, id: JobId, message: string): Rows {
    if id in rows then rows[id := rows[id].(message := message)] else rows
  }

  // Why a status update is refused, if it is: a read, a check, then a write.
  function StatusRefusal(rows: Rows, id: JobId, to: Status, readFails: bool, writeFails: bool): Option<StoreError> {
    if !to.IsValid() then Some(Invalid(InvalidStatus))
    else if readFails then Some(Unavailable)
    else if id !in rows then Some(NotFound)
    else if !rows[id].status.CanTransitionTo(to) then Some(BadTransition)
    else if writeFails then Some(Unavailable)
    else None
  }

  class JobStore {
    var rows: Rows

    constructor ()
      ensures rows == map[]
    {
      rows := map[];
    }

    method Create(job: JobRecord, fails: bool) returns (error: Option<StoreError>)
      modifies this, job
      ensures FirstFault(old(job.row)).Some? ==>
                && error == Some(Invalid(FirstFault(old(job.row)).value))
                && rows == old(rows) && job.row == TypeFilled(old(job.row))
      ensures FirstFault(old(job.row)).None? ==>
                && job.row == Relocated(TypeFilled(old(job.row)))
                && (error.None? <==> !fails && job.row.id !in old(rows))
                && rows == if error.None? then old(rows)[job.row.id := job.row] else old(rows)
    {
      var fault := job.Validate();
      if fault.Some? { return Some(Invalid(fault.value)); }
      job.EnsureOutputPrefix();
      if fails || job.row.id in rows { return Some(Unavailable); }
      rows := rows[job.row.id := job.row];
      return None;
    }

    method Get(id: JobId, fails: bool) returns (result: Fetched)
      ensures result == if fails then Missed(Unavailable) else if id in rows then Found(rows[id]) else Missed(NotFound)
    {
      if fails { return Missed(Unavailable); }
      if id !in rows { return Missed(NotFound); }
      return Found(rows[id]);
    }

    method UpdateStatus(id: JobId, to: Status, readFails: bool, writeFails: bool) returns (error: Option<StoreError>)
      modifies this
      ensures error == StatusRefusal(old(rows), id, to, readFails, writeFails)
      ensures rows == if error.None? then WithStatus(old(rows), id, to) else old(rows)
      ensures error.None? <==>
              !to.Other? && !readFails && id in old(rows) && old(rows)[id].status.CanTransitionTo(to) && !writeFails
      ensures error.None? ==> rows == old(rows)[id := old(rows)[id].(status := to)]
    {
      if !to.IsValid() { return Some(Invalid(InvalidStatus)); }
      var job := Get(id, readFails);
      if job.Missed? { return Some(job.error); }
      if !job.job.status.CanTransitionTo(to) { return Some(BadTransition); }
      if writeFails { return Some(Unavailable); }
      rows := rows[id := rows[id].(status := to)];
      return None;
    }

    method UpdateAssignment(id: JobId, owner: AgentId, lease: string, fails: bool) returns (error: Option<StoreError>)
      modifies this
      ensures error.Some? <==> fails
      ensures rows == if fails then old(rows) else WithOwner(old(rows), id, owner, lease)
    {
      if fails { return Some(Unavailable); }
      if id in rows { rows := rows[id := rows[id].(owner := owner, lease := lease)]; }
      return None;
    }

    method UpdateAttemptID(id: JobId, attempt: int, fails: bool) returns (error: Option<StoreError>)
      modifies this
      ensures error == if attempt < 1 then Some(BadAttempt) else if fails then Some(Unavailable) else None
      ensures rows == if error.Some? then old(rows) else WithAttempt(old(rows), id, attempt)
    {
      if attempt < 1 { return Some(BadAttempt); }
      if fails { return Some(Unavailable); }
      if id in rows { rows := rows[id := rows[id].(attempt := attempt)]; }
      return None;
    }

    method UpdateOutput(id: JobId, key: string, prefix: string, fails: bool) returns (error: Option<StoreError>)
      modifies this
      ensures error.Some? <==> fails
      ensures rows == if fails then old(rows) else WithOutput(old(rows), id, key, prefix)
    {
      if fails { return Some(Unavailable); }
      if id in rows { rows := rows[id := rows[id].(outputKey := key, outputPrefix := prefix)]; }
      return None;
    }

    method UpdateStdoutStderr(id: JobId, stdout: string, stderr: string, fails: bool)
      returns (error: Option<StoreError>)
      modifies this
      ensures error.Some? <==> fails
      ensures rows == if fails then old(rows) else WithStreams(old(rows), id, stdout, stderr)
    {
      if fails { return Some(Unavailable); }
      if id in rows { rows := rows[id := rows[id].(stdout := stdout, stderr := stderr)]; }
      return None;
    }

    method UpdateMessage(id: JobId, message: string, fails: bool) returns (error: Option<StoreError>)
      modifies this
      ensures error.Some? <==> fails
      ensures rows == if fails then old(rows) else WithMessage(old(rows), id, message)
    {
      if fails { return Some(Unavailable); }
      if id in rows { rows := rows[id := rows[id].(message := message)]; }
      return None;
    }
  }
}
