// The job record and its state machine (cloud/internal/job/model.go).
module JobModel {
  import opened Options
  import opened OutputPaths

  type JobId = string
  type AgentId = string

  // Other(text) is any string that is not one of the seven status constants.
  datatype Status = Pending | Assigned | Running | Succeeded | Failed | Canceled | Lost | Other(text: string) {

    predicate IsValid() {
      !Other?
    }

    predicate IsTerminal() {
      Succeeded? || Failed? || Canceled? || Lost?
    }

    predicate CanTransitionTo(target: Status) {
      match this
      case Pending => target.Assigned? || target.Canceled?
      case Assigned => target.Running? || target.Canceled? || target.Lost?
      case Running => target.Succeeded? || target.Failed? || target.Canceled? || target.Lost?
      case _ => false
    }

    // How far along its life a job is: every legal transition moves strictly up.
    function Rank(): nat {
      if Pending? then 0 else if Assigned? then 1 else if Running? then 2 else 3
    }
  }

  // The part of a job that is fixed when the job is created.
  datatype Spec = Spec(
    inputBucket: string, inputKey: string, outputBucket: string, outputExtension: string,
    command: string, jobType: string,
    forwardUrl: string, forwardMethod: string, forwardHeaders: string, forwardBody: string,
    forwardTimeout: int, inputForward: string)

  datatype Job = Job(
    id: JobId, spec: Spec, status: Status, outputKey: string, outputPrefix: string, attempt: int,
    owner: AgentId, lease: string, message: string, stdout: string, stderr: string)

  datatype JobError =
    | InvalidJobId | InvalidStatus | InvalidInput | InvalidAttemptId
    | InvalidJobType | InvalidForwardUrl | InvalidInputForwardMode

  const COMMAND := "COMMAND"
  const FORWARD_HTTP := "FORWARD_HTTP"
  const MODE_URL := "URL"
  const MODE_LOCAL_FILE := "LOCAL_FILE"

  function DefaultedType(jobType: string): string {
    if jobType == "" then COMMAND else jobType
  }

  // The first rule that a record breaks, in the order in which the rules are checked.
  function FirstFault(j: Job): Option<JobError> {
    var jobType := DefaultedType(j.spec.jobType);
    if j.id == "" then Some(InvalidJobId)
    else if !j.status.IsValid() then Some(InvalidStatus)
    else if (j.spec.inputBucket == "") != (j.spec.inputKey == "") then Some(InvalidInput)
    else if j.attempt < 1 then Some(InvalidAttemptId)
    else if jobType != COMMAND && jobType != FORWARD_HTTP then Some(InvalidJobType)
    else if jobType == FORWARD_HTTP && j.spec.forwardUrl == "" then Some(InvalidForwardUrl)
    else if jobType == FORWARD_HTTP && j.spec.inputForward !in ["", MODE_URL, MODE_LOCAL_FILE]
    then Some(InvalidInputForwardMode)
    else None
  }

  // Validate fills in the job type only after the first four rules have passed.
  function TypeFilled(j: Job): Job {
    if FirstFault(j) in {Some(InvalidJobId), Some(InvalidStatus), Some(InvalidInput), Some(InvalidAttemptId)} then j
    else j.(spec := j.spec.(jobType := DefaultedType(j.spec.jobType)))
  }

  // The record with its output location forced into its own subtree.
  function Relocated(j: Job): Job {
    var home := PrefixOf(j.id, j.attempt);
    if j.outputPrefix == "" then j.(outputPrefix := home, outputKey := "")
    else if home <= j.outputPrefix then j
    else j.(outputPrefix := home)
  }

  // A job object that is filled in and checked in place before it is stored.
  class JobRecord {
    var row: Job

    constructor (row: Job)
      ensures this.row == row
    {
      this.row := row;
    }

    method EnsureOutputPrefix()
      modifies this
      ensures row == Relocated(old(row))
    {
      var expected := PrefixOf(row.id, row.attempt);
      if row.outputPrefix == "" && row.outputKey == "" {
        row := row.(outputPrefix := expected);
      } else if row.outputPrefix != "" {
        if row.outputPrefix != expected && !StartsWith(row.outputPrefix, expected) {
          row := row.(outputPrefix := expected);
        }
      } else if row.outputKey != "" {
        if StartsWith(row.outputKey, expected) {
          row := row.(outputPrefix := expected, outputKey := "");
        } else {
          row := row.(outputPrefix := expected, outputKey := "");
        }
      }
    }

    method Validate() returns (fault: Option<JobError>)
      modifies this
      ensures fault == FirstFault(old(row))
      ensures fault.None? <==>
              && row.id != "" && !row.status.Other? && (row.spec.inputBucket == "" <==> row.spec.inputKey == "")
              && row.attempt >= 1
              && (row.spec.jobType == "COMMAND"
                  || (row.spec.jobType == "FORWARD_HTTP" && row.spec.forwardUrl != ""
                      && row.spec.inputForward in {"", "URL", "LOCAL_FILE"}))
      ensures row == TypeFilled(old(row))
    {
      if row.id == "" { return Some(InvalidJobId); }
      if !row.status.IsValid() { return Some(InvalidStatus); }
      if (row.spec.inputBucket == "" && row.spec.inputKey != "")
          || (row.spec.inputBucket != "" && row.spec.inputKey == "") {
        return Some(InvalidInput);
      }
      if row.attempt < 1 { return Some(InvalidAttemptId); }
      if row.spec.jobType == "" { row := row.(spec := row.spec.(jobType := COMMAND)); }
      if row.spec.jobType != COMMAND && row.spec.jobType != FORWARD_HTTP { return Some(InvalidJobType); }
      if row.spec.jobType == FORWARD_HTTP {
        if row.spec.forwardUrl == "" { return Some(InvalidForwardUrl); }
        if row.spec.inputForward != "" && row.spec.inputForward != MODE_URL
            && row.spec.inputForward != MODE_LOCAL_FILE {
          return Some(InvalidInputForwardMode);
        }
      }
      return None;
    }
  }

  // Every status of a job is reached by at most three changes: each legal
  // transition climbs, terminal statuses are exactly the dead ends, and no
  // transition leads back to PENDING.
  lemma TransitionsClimb(from: Status, to: Status)
    ensures from.CanTransitionTo(to) ==> from.Rank() < to.Rank() <= 3 && !from.IsTerminal() && to.IsValid()
    ensures !from.CanTransitionTo(Pending)
    ensures from.IsValid() && (forall t: Status :: !from.CanTransitionTo(t)) <==> from.IsTerminal()
  {
    if from.IsValid() && !from.IsTerminal() {
      assert from.CanTransitionTo(Canceled);
    }
  }

  lemma RelocatedInOwnSubtree(j: Job)
    ensures PrefixOf(j.id, j.attempt) <= Relocated(j).outputPrefix
    // a prefix is kept exactly if it lies there already
    ensures Relocated(j).outputPrefix == j.outputPrefix <==> PrefixOf(j.id, j.attempt) <= j.outputPrefix
    ensures Relocated(j).outputPrefix in {j.outputPrefix, PrefixOf(j.id, j.attempt)}
    ensures Relocated(j).outputKey in {j.outputKey, ""}
    ensures Relocated(Relocated(j)) == Relocated(j)
    ensures Relocated(j) == j.(outputPrefix := Relocated(j).outputPrefix, outputKey := Relocated(j).outputKey)
    // a requested key survives exactly when a prefix came with it, wherever it points
    ensures Relocated(j).outputKey == j.outputKey <==> j.outputPrefix != "" || j.outputKey == ""
  {
    PrefixShape(j.id, j.attempt);
  }

  // No created job's output prefix lies inside another job's.
  lemma SubtreesAreDisjoint(j: Job, k: Job)
    requires '/' !in j.id && '/' !in k.id
    requires (j.id, j.attempt) != (k.id, k.attempt)
    ensures !(Relocated(j).outputPrefix <= Relocated(k).outputPrefix)
  {
    RelocatedInOwnSubtree(j);
    RelocatedInOwnSubtree(k);
    if Relocated(j).outputPrefix <= Relocated(k).outputPrefix {
      var a, b, whole := PrefixOf(j.id, j.attempt), PrefixOf(k.id, k.attempt), Relocated(k).outputPrefix;
      assert a <= whole && b <= whole;
      if |a| <= |b| {
        assert a == b[..|a|];
        PrefixesAreFree(j.id, j.attempt, k.id, k.attempt);
      } else {
        assert b == a[..|b|];
        PrefixesAreFree(k.id, k.attempt, j.id, j.attempt);
      }
    }
  }
}
