// The gateway's handlers as threads that interleave at every store, queue and
// registry call (cloud/internal/gateway/gateway.go), next to the threads that
// create jobs (cloud/internal/api/api.go).
module Dispatch {
  import opened Options
  import opened OutputPaths
  import opened JobModel
  import opened Messages
  import opened Store
  import opened Registry

  const MAX_DEQUEUE_ATTEMPTS := 5

  datatype Server = Server(rows: Rows, queue: seq<JobId>, agents: Agents)

  // A connection handles its messages one after the other; HTTP requests are independent.
  datatype Thread = Conn(agent: AgentId) | Http(number: nat)

  // What the surroundings do to one call: whether it fails, the time, and a new UUID.
  datatype Env = Env(fails: bool, now: int, uuid: string)

  // The attempt number and output location chosen for a job.
  datatype Plan = Plan(attempt: int, prefix: string, key: string)

  // A request handler at work on a job: `job` is the row as it was read, `lease`
  // is empty until one has been generated.
  datatype Work = Work(agent: AgentId, id: JobId, job: Job, plan: Plan, lease: string)

  // Where a thread is; each position names the call it makes next.
  datatype Pc =
    | Idle
    // handleRequestJob
    | RCheck(agent: AgentId)
    | RDequeue(agent: AgentId, tries: nat)
    | RGet(agent: AgentId, tries: nat, id: JobId)
    | RAttempt(w: Work)
    | RUrls(w: Work)
    | RAssign(w: Work)
    | RRead(w: Work)
    | RWrite(w: Work)
    | ROutput(w: Work)
    | RMarshal(w: Work)
    | RCount(w: Work)
    | RSend(w: Work)
    | RRevert(w: Work)
    | RClear(w: Work, committed: bool)
    | RRequeue(id: JobId)
    // handleJobStatus
    | SGet(agent: AgentId, m: JobStatus)
    | SMessage(agent: AgentId, m: JobStatus, j: Job)
    | SStreams(agent: AgentId, m: JobStatus, j: Job)
    | SRead(agent: AgentId, m: JobStatus, j: Job, to: Status)
    | SWrite(agent: AgentId, m: JobStatus, j: Job, to: Status)
    | SCount(agent: AgentId)
    // HandleCreateJob
    | CCreate(job: Job)
    | CEnqueue(id: JobId)

  datatype Outcome = Outcome(sv: Server, pc: Pc, sent: Option<JobAssigned>)

  // Where the output of a job goes; an attempt below 1 is taken as 1.
  function PlanFor(id: JobId, spec: Spec, stored: int): (p: Plan)
    ensures p.prefix <= p.key
    ensures p.attempt == if stored < 1 then 1 else stored
  {
    var attempt := if stored > 1 then stored else 1;
    var prefix := PrefixOf(id, attempt);
    Plan(attempt, prefix, prefix + "output." + FileExtension(spec.outputExtension))
  }

  function HasInput(j: Job): bool {
    j.spec.inputBucket != "" && j.spec.inputKey != ""
  }

  // The message that hands a job to an agent; the upload URL is made for the planned key.
  function Assignment(w: Work): JobAssigned {
    var spec := w.job.spec;
    var http := spec.jobType == FORWARD_HTTP;
    JobAssigned(
      w.id, Int32(w.plan.attempt), w.lease, Presigned(Upload(w.plan.key)), w.plan.prefix, w.plan.key,
      if http then "" else spec.command, http, ModeToProto(spec.inputForward),
      if http
      then Some(Forward(spec.forwardUrl, spec.forwardMethod, spec.forwardHeaders, spec.forwardBody,
                        Int32(spec.forwardTimeout)))
      else None,
      if HasInput(w.job) then Presigned(Download(spec.inputKey)) else NoAccess,
      if HasInput(w.job) then spec.inputKey else "")
  }

  // After the message has been stored, the handler branches on the reported status.
  function AfterMessage(agent: AgentId, m: JobStatus, j: Job): Pc {
    match StatusFromProto(m.status)
    case Running => if m.stdout != "" || m.stderr != "" then SStreams(agent, m, j) else SRead(agent, m, j, Running)
    case Succeeded => SStreams(agent, m, j)
    case Failed => SStreams(agent, m, j)
    case other => if j.status.CanTransitionTo(other) then SRead(agent, m, j, other) else Idle
  }

  // SUCCEEDED with a key that is not the stored one becomes FAILED.
  function Target(m: JobStatus, j: Job): Status {
    if m.status == STATUS_SUCCEEDED && m.outputKey != "" && m.outputKey != j.outputKey then Failed
    else StatusFromProto(m.status)
  }

  function Counted(m: Agents, id: AgentId, change: int, now: int): Agents {
    if id in m then Beaten(m, id, m[id].paused, m[id].running + change, now) else m
  }

  // One call made by a thread, with the local computation up to its next call.
  function Advance(sv: Server, pc: Pc, env: Env): Outcome {
    match pc
    case Idle => Outcome(sv, Idle, None)
    case RCheck(agent) =>
      (match Lookup(sv.agents, agent, env.now)
       case None => Outcome(sv, Idle, None)
       case Some(info) =>
         Outcome(sv, if info.paused || info.running >= info.max then Idle else RDequeue(agent, 0), None))
    case RDequeue(agent, tries) =>
      if env.fails || sv.queue == [] then Outcome(sv, Idle, None)
      else Outcome(sv.(queue := sv.queue[1..]), RGet(agent, tries, sv.queue[0]), None)
    case RGet(agent, tries, id) =>
      if !env.fails && id in sv.rows && sv.rows[id].status == Pending then
        var w := Work(agent, id, sv.rows[id], PlanFor(id, sv.rows[id].spec, sv.rows[id].attempt), "");
        Outcome(sv, if w.job.attempt < 1 then RAttempt(w) else RUrls(w), None)
      else
        Outcome(sv, if tries + 1 < MAX_DEQUEUE_ATTEMPTS then RDequeue(agent, tries + 1) else Idle, None)
    case RAttempt(w) =>
      if env.fails then Outcome(sv, RRequeue(w.id), None)
      else Outcome(sv.(rows := WithAttempt(sv.rows, w.id, 1)), RUrls(w.(job := w.job.(attempt := 1))), None)
    case RUrls(w) =>
      Outcome(sv, if env.fails then RRequeue(w.id) else RAssign(w), None)
    case RAssign(w) =>
      if env.fails then Outcome(sv, RRequeue(w.id), None)
      else Outcome(sv.(rows := WithOwner(sv.rows, w.id, w.agent, env.uuid)), RRead(w.(lease := env.uuid)), None)
    case RRead(w) =>
      if env.fails || w.id !in sv.rows || !sv.rows[w.id].status.CanTransitionTo(Assigned)
      then Outcome(sv, RClear(w, false), None)
      else Outcome(sv, RWrite(w), None)
    case RWrite(w) =>
      if env.fails then Outcome(sv, RClear(w, false), None)
      else Outcome(sv.(rows := WithStatus(sv.rows, w.id, Assigned)), ROutput(w), None)
    case ROutput(w) =>
      if env.fails then Outcome(sv, RRevert(w), None)
      else Outcome(sv.(rows := WithOutput(sv.rows, w.id, w.plan.key, w.plan.prefix)), RMarshal(w), None)
    case RMarshal(w) =>
      Outcome(sv, if env.fails then RRevert(w) else RCount(w), None)
    case RCount(w) =>
      Outcome(sv.(agents := Counted(sv.agents, w.agent, 1, env.now)), RSend(w), None)
    case RSend(w) =>
      Outcome(sv, Idle, Some(Assignment(w)))
    case RRevert(w) =>
      if StatusRefusal(sv.rows, w.id, Pending, env.fails, false).None?
      then Outcome(sv.(rows := WithStatus(sv.rows, w.id, Pending)), RClear(w, true), None)
      else Outcome(sv, RClear(w, true), None)
    case RClear(w, committed) =>
      Outcome(if env.fails then sv else sv.(rows := WithOwner(sv.rows, w.id, "", "")), RRequeue(w.id), None)
    case RRequeue(id) =>
      Outcome(if env.fails || id == "" then sv else sv.(queue := sv.queue + [id]), Idle, None)
    case SGet(agent, m) =>
      if env.fails || m.id !in sv.rows then Outcome(sv, Idle, None)
      else
        var j := sv.rows[m.id];
        if j.owner != agent || m.attempt != j.attempt || !StatusFromProto(m.status).IsValid() || j.status.IsTerminal()
        then Outcome(sv, Idle, None)
        else Outcome(sv, if m.message != "" then SMessage(agent, m, j) else AfterMessage(agent, m, j), None)
    case SMessage(agent, m, j) =>
      Outcome(if env.fails then sv else sv.(rows := WithMessage(sv.rows, m.id, m.message)),
              AfterMessage(agent, m, j), None)
    case SStreams(agent, m, j) =>
      Outcome(if env.fails then sv else sv.(rows := WithStreams(sv.rows, m.id, m.stdout, m.stderr)),
              SRead(agent, m, j, Target(m, j)), None)
    case SRead(agent, m, j, to) =>
      if env.fails || m.id !in sv.rows || !sv.rows[m.id].status.CanTransitionTo(to) then Outcome(sv, Idle, None)
      else Outcome(sv, SWrite(agent, m, j, to), None)
    case SWrite(agent, m, j, to) =>
      if env.fails then Outcome(sv, Idle, None)
      else Outcome(sv.(rows := WithStatus(sv.rows, m.id, to)), if to.IsTerminal() then SCount(agent) else Idle, None)
    case SCount(agent) =>
      var info := Lookup(sv.agents, agent, env.now);
      Outcome(if info.Some? && info.value.running > 0 then sv.(agents := Counted(sv.agents, agent, -1, env.now))
              else sv,
              Idle, None)
    case CCreate(job) =>
      if env.fails || job.id in sv.rows then Outcome(sv, Idle, None)
      else Outcome(sv.(rows := sv.rows[job.id := job]), CEnqueue(job.id), None)
    case CEnqueue(id) =>
      Outcome(if env.fails || id == "" then sv else sv.(queue := sv.queue + [id]), Idle, None)
  }

  // The whole system: shared data, thread positions, ids generated so far, and
  // what was sent over each connection (with the connection each id went to).
  datatype State = State(
    sv: Server, threads: map<Thread, Pc>, ids: set<JobId>,
    log: map<Thread, seq<JobAssigned>>, dispatched: map<JobId, Thread>)

  datatype Action =
    | Request(conn: AgentId, envelope: AgentId, payload: AgentId)
    | Report(conn: AgentId, envelope: AgentId, m: JobStatus)
    | Heartbeat(conn: AgentId, payload: AgentId, paused: bool, running: int, now: int)
    | Register(conn: AgentId, hostname: string, max: int, now: int)
    | Create(number: nat, job: Job)
    | Run(thread: Thread, env: Env)

  function PcOf(s: State, t: Thread): Pc {
    if t in s.threads then s.threads[t] else Idle
  }

  function LogOf(s: State, t: Thread): seq<JobAssigned> {
    if t in s.log then s.log[t] else []
  }

  // A job as HandleCreateJob builds it.
  predicate IsNew(j: Job) {
    j.id != "" && j.status == Pending && j.owner == "" && j.attempt >= 1
  }

  // A thread starts on a message only when it has finished the previous one,
  // and generated ids are new.
  predicate Enabled(s: State, a: Action) {
    match a
    case Request(c, _, _) => PcOf(s, Conn(c)) == Idle
    case Report(c, _, _) => PcOf(s, Conn(c)) == Idle
    case Heartbeat(c, _, _, _, _) => PcOf(s, Conn(c)) == Idle
    case Register(c, _, _, _) => PcOf(s, Conn(c)) == Idle
    case Create(n, job) => PcOf(s, Http(n)) == Idle && IsNew(job) && job.id !in s.ids
    case Run(t, env) => PcOf(s, t) != Idle
  }

  // The state once thread t has made a call with the given outcome.
  function After(s: State, t: Thread, o: Outcome): State {
    var moved := s.(sv := o.sv, threads := s.threads[t := o.pc]);
    if o.sent.None? then moved
    else moved.(log := s.log[t := LogOf(s, t) + [o.sent.value]], dispatched := s.dispatched[o.sent.value.id := t])
  }

  function Step(s: State, a: Action): State {
    match a
    case Request(c, envelope, payload) =>
      if (payload != "" && payload != envelope) || envelope == "" then s
      else s.(threads := s.threads[Conn(c) := RCheck(envelope)])
    case Report(c, envelope, m) =>
      if envelope == "" || c != envelope || m.id == "" then s
      else s.(threads := s.threads[Conn(c) := SGet(envelope, m)])
    case Heartbeat(c, payload, paused, running, now) =>
      if c == "" || payload != c then s
      else s.(sv := s.sv.(agents := Beaten(s.sv.agents, c, paused, running, now)))
    case Register(c, hostname, max, now) =>
      if c == "" then s
      else s.(sv := s.sv.(agents := Registered(s.sv.agents, c, hostname, max, now)))
    case Create(n, job) =>
      s.(threads := s.threads[Http(n) := CCreate(job)], ids := s.ids + {job.id})
    case Run(t, env) =>
      After(s, t, Advance(s.sv, PcOf(s, t), env))
  }

  predicate Start(s: State) {
    && s.sv.rows == map[] && s.sv.queue == [] && s.sv.agents == map[] && s.threads == map[] && s.ids == {}
    && s.log == map[] && s.dispatched == map[]
  }

  // A run lists its states; each comes from the one before by an enabled action.
  ghost predicate IsRun(states: seq<State>, actions: seq<Action>) {
    && |states| == |actions| + 1
    && Start(states[0])
    && forall i | 0 <= i < |actions| :: Enabled(states[i], actions[i]) && states[i + 1] == Step(states[i], actions[i])
  }
}
