// POST /api/jobs from the parsed request onwards (cloud/internal/api/api.go).
module JobApi {
  import opened Options
  import opened OutputPaths
  import opened JobModel
  import opened Store
  import Queue
  import opened Registry
  import opened Dispatch
  import opened Handlers
  import opened Texts

  const MAX_COMMAND_LENGTH := 8192

  // forwardHeaders is the JSON text of the headers, empty when there are none.
  datatype CreateJobRequest = CreateJobRequest(
    inputBucket: string, inputKey: string, outputBucket: string, outputKey: string, outputPrefix: string,
    outputExtension: string, attempt: int, command: string, jobType: string,
    forwardUrl: string, forwardMethod: string, forwardHeaders: string, forwardBody: string,
    forwardTimeout: int, inputForwardMode: string)

  datatype Refusal =
    | HalfInput | CommandTooLong | BadJobType | BadForwardMode | NoForwardUrl
    | InvalidJob(fault: JobError)

  datatype Response = BadRequest(why: Refusal) | InternalError | CreatedJob(id: JobId)

  function JobTypeOf(req: CreateJobRequest): string {
    DefaultedType(ToUpper(TrimSpace(req.jobType)))
  }

  function ModeOf(req: CreateJobRequest): string {
    ToUpper(TrimSpace(req.inputForwardMode))
  }

  // The first guard that the request fails.
  function Refused(req: CreateJobRequest): Option<Refusal> {
    if (req.inputBucket == "") != (req.inputKey == "") then Some(HalfInput)
    else if |req.command| > MAX_COMMAND_LENGTH then Some(CommandTooLong)
    else if JobTypeOf(req) != COMMAND && JobTypeOf(req) != FORWARD_HTTP then Some(BadJobType)
    else if ModeOf(req) !in ["", MODE_URL, MODE_LOCAL_FILE] then Some(BadForwardMode)
    else if JobTypeOf(req) == FORWARD_HTTP && TrimSpace(req.forwardUrl) == "" then Some(NoForwardUrl)
    else None
  }

  // The job as it is first built, before its output location is normalised.
  function Draft(req: CreateJobRequest, id: JobId): Job {
    Job(id,
        Spec(req.inputBucket, req.inputKey, req.outputBucket, FileExtension(req.outputExtension), req.command,
             JobTypeOf(req),
             TrimSpace(req.forwardUrl), TrimSpace(req.forwardMethod), req.forwardHeaders, req.forwardBody,
             req.forwardTimeout, ModeOf(req)),
        Pending, req.outputKey, req.outputPrefix, if req.attempt < 1 then 1 else req.attempt, "", "", "", "", "")
  }

  // A request that passes the guards makes a job that passes validation, and
  // storing it normalises nothing further.
  lemma DraftsAreStorable(req: CreateJobRequest, id: JobId)
    requires Refused(req).None? && id != ""
    ensures var job := Relocated(Draft(req, id));
      FirstFault(job).None? && TypeFilled(job) == job && Relocated(job) == job && IsNew(job)
  {
    RelocatedInOwnSubtree(Draft(req, id));
  }

  // The job is the one that was asked for, column by column.
  ghost predicate AsAsked(req: CreateJobRequest, j: Job) {
    && j.spec.inputBucket == req.inputBucket && j.spec.inputKey == req.inputKey
    && j.spec.outputBucket == req.outputBucket && j.spec.command == req.command
    && j.spec.outputExtension
       == (if req.outputExtension == "" then "bin"
           else if req.outputExtension[0] == '.' then req.outputExtension[1..] else req.outputExtension)
    && (TrimSpace(req.jobType) == "" ==> j.spec.jobType == "COMMAND")
    && (TrimSpace(req.jobType) != "" ==> j.spec.jobType == ToUpper(TrimSpace(req.jobType)))
    && IsTrimmed(j.spec.forwardUrl, req.forwardUrl) && IsTrimmed(j.spec.forwardMethod, req.forwardMethod)
    && j.spec.forwardHeaders == req.forwardHeaders && j.spec.forwardBody == req.forwardBody
    && j.spec.forwardTimeout == req.forwardTimeout && j.spec.inputForward == ToUpper(TrimSpace(req.inputForwardMode))
    && j.attempt == (if req.attempt >= 1 then req.attempt else 1)
    && j.status == Pending && j.owner == j.lease == j.message == j.stdout == j.stderr == ""
    && PrefixOf(j.id, j.attempt) <= j.outputPrefix
    && (j.outputPrefix == req.outputPrefix <==> PrefixOf(j.id, j.attempt) <= req.outputPrefix)
    && j.outputKey == (if req.outputPrefix != "" then req.outputKey else "")
  }

  lemma DraftsAreAsAsked(req: CreateJobRequest, id: JobId)
    ensures Relocated(Draft(req, id)).id == id && AsAsked(req, Relocated(Draft(req, id)))
  {
    hide PrefixOf, TrimSpace;
    RelocatedInOwnSubtree(Draft(req, id));
    TrimExact(req.forwardUrl, TrimSpace(req.forwardUrl));
    TrimExact(req.forwardMethod, TrimSpace(req.forwardMethod));
    UpperExact(TrimSpace(req.jobType));
  }

  lemma EnqueueOnce(sv: Server, id: JobId, world: World)
    ensures Finish(sv, CEnqueue(id), world)
         == Final(sv.(queue := PutBack(sv.queue, id, world(CEnqueue(id)).fails)), None)
  {}

  // The job thread of an uninterrupted creation.
  lemma CreateOnce(sv: Server, job: Job, world: World)
    ensures Finish(sv, CCreate(job), world)
         == if world(CCreate(job)).fails || job.id in sv.rows then Final(sv, None)
            else Final(sv.(rows := sv.rows[job.id := job],
                           queue := PutBack(sv.queue, job.id, world(CEnqueue(job.id)).fails)), None)
  {
    if !world(CCreate(job)).fails && job.id !in sv.rows {
      var o := Advance(sv, CCreate(job), world(CCreate(job)));
      assert Finish(sv, CCreate(job), world) == Finish(o.sv, CEnqueue(job.id), world);
      EnqueueOnce(o.sv, job.id, world);
    }
  }

  class JobHandler {
    const store: JobStore
    const queue: Queue.JobQueue

    constructor (store: JobStore, queue: Queue.JobQueue)
      ensures this.store == store && this.queue == queue
    {
      this.store, this.queue := store, queue;
    }

    // The guards, in the order in which they are checked.
    method Check(req: CreateJobRequest) returns (why: Option<Refusal>)
      ensures why == Refused(req)
    {
      if (req.inputBucket == "" && req.inputKey != "") || (req.inputBucket != "" && req.inputKey == "") {
        return Some(HalfInput);
      }
      if |req.command| > MAX_COMMAND_LENGTH { return Some(CommandTooLong); }
      var jobType := ToUpper(TrimSpace(req.jobType));
      if jobType == "" { jobType := COMMAND; }
      if jobType != COMMAND && jobType != FORWARD_HTTP { return Some(BadJobType); }
      var mode := ToUpper(TrimSpace(req.inputForwardMode));
      if mode != "" && mode != MODE_URL && mode != MODE_LOCAL_FILE { return Some(BadForwardMode); }
      if jobType == FORWARD_HTTP && TrimSpace(req.forwardUrl) == "" { return Some(NoForwardUrl); }
      return None;
    }

    // The record, up to validation.
    method Build(req: CreateJobRequest, uuid: JobId) returns (newJob: JobRecord)
      ensures fresh(newJob) && newJob.row == Relocated(Draft(req, uuid))
    {
      hide TrimSpace, ToUpper, Relocated;
      var attempt := req.attempt;
      if attempt < 1 { attempt := 1; }
      var jobType := ToUpper(TrimSpace(req.jobType));
      if jobType == "" { jobType := COMMAND; }
      var extension := req.outputExtension;
      if extension == "" { extension := "bin"; }
      if extension[0] == '.' { extension := extension[1..]; }
      newJob := new JobRecord(Job(uuid,
        Spec(req.inputBucket, req.inputKey, req.outputBucket, extension, req.command, jobType,
             TrimSpace(req.forwardUrl), TrimSpace(req.forwardMethod), req.forwardHeaders, req.forwardBody,
             req.forwardTimeout, ToUpper(TrimSpace(req.inputForwardMode))),
        Pending, req.outputKey, req.outputPrefix, attempt, "", "", "", "", ""));
      newJob.EnsureOutputPrefix();
    }

    // Validates, stores and enqueues; a failure to enqueue does not fail the request.
    method Persist(newJob: JobRecord, world: World, ghost agents: Agents) returns (response: Response)
      requires TypeFilled(newJob.row) == newJob.row && Relocated(newJob.row) == newJob.row
      modifies store, queue, newJob
      ensures newJob.row == old(newJob.row)
      ensures FirstFault(newJob.row).Some? ==>
                && response == BadRequest(InvalidJob(FirstFault(newJob.row).value))
                && store.rows == old(store.rows) && queue.items == old(queue.items)
      ensures FirstFault(newJob.row).None? ==>
                Final(Server(store.rows, queue.items, agents), None)
                == Finish(Server(old(store.rows), old(queue.items), agents), CCreate(newJob.row), world)
      ensures FirstFault(newJob.row).None? ==>
                response == if world(CCreate(newJob.row)).fails || newJob.row.id in old(store.rows) then InternalError
                            else CreatedJob(newJob.row.id)
    {
      CreateOnce(Server(store.rows, queue.items, agents), newJob.row, world);
      ghost var row := newJob.row;
      var fault := newJob.Validate();
      if fault.Some? { return BadRequest(InvalidJob(fault.value)); }
      var error := store.Create(newJob, world(CCreate(newJob.row)).fails);
      if error.Some? { return InternalError; }
      var id := newJob.row.id;
      var _ := queue.Enqueue(id, world(CEnqueue(id)).fails);
      return CreatedJob(id);
    }

    // `uuid` is the newly generated job id.
    method HandleCreateJob(req: CreateJobRequest, uuid: JobId, world: World, ghost agents: Agents)
      returns (response: Response)
      requires uuid != ""
      modifies store, queue
      ensures Refused(req).Some? ==>
                && response == BadRequest(Refused(req).value)
                && store.rows == old(store.rows) && queue.items == old(queue.items)
      ensures Refused(req).None? ==>
                var job := Relocated(Draft(req, uuid));
                && Final(Server(store.rows, queue.items, agents), None)
                   == Finish(Server(old(store.rows), old(queue.items), agents), CCreate(job), world)
                && response == if world(CCreate(job)).fails || uuid in old(store.rows) then InternalError
                               else CreatedJob(uuid)
      // only these requests are accepted, and what is stored is what they ask for
      ensures response.BadRequest? <==>
              !(&& (req.inputBucket == "" <==> req.inputKey == "") && |req.command| <= 8192
                && ToUpper(TrimSpace(req.jobType)) in {"", "COMMAND", "FORWARD_HTTP"}
                && ToUpper(TrimSpace(req.inputForwardMode)) in {"", "URL", "LOCAL_FILE"}
                && (ToUpper(TrimSpace(req.jobType)) == "FORWARD_HTTP" ==> TrimSpace(req.forwardUrl) != ""))
      ensures response.BadRequest? ==>
                response.why
                == if (req.inputBucket == "") != (req.inputKey == "") then HalfInput
                   else if |req.command| > 8192 then CommandTooLong
                   else if ToUpper(TrimSpace(req.jobType)) !in {"", "COMMAND", "FORWARD_HTTP"} then BadJobType
                   else if ToUpper(TrimSpace(req.inputForwardMode)) !in {"", "URL", "LOCAL_FILE"} then BadForwardMode
                   else NoForwardUrl
      ensures !response.CreatedJob? ==> store.rows == old(store.rows) && queue.items == old(queue.items)
      ensures response.CreatedJob? ==>
                && response.id == uuid && uuid !in old(store.rows) && uuid in store.rows
                && store.rows == old(store.rows)[uuid := store.rows[uuid]]
                && store.rows[uuid].id == uuid && AsAsked(req, store.rows[uuid])
                && queue.items in {old(queue.items), old(queue.items) + [uuid]}
                && (!world(CEnqueue(uuid)).fails ==> queue.items == old(queue.items) + [uuid])
    {
      hide TrimSpace, ToUpper, AsAsked, Relocated, Finish;
      var why := Check(req);
      if why.Some? { return BadRequest(why.value); }
      var newJob := Build(req, uuid);
      RelocatedInOwnSubtree(Draft(req, uuid));
      DraftsAreStorable(req, uuid);
      DraftsAreAsAsked(req, uuid);
      CreateOnce(Server(store.rows, queue.items, agents), newJob.row, world);
      response := Persist(newJob, world, agents);
    }
  }
}
