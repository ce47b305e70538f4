// A handler that runs without interruption: its calls in sequence, each meeting
// whatever the world answers at that point of the program.
module Handlers {
  import opened Options
  import opened JobModel
  import opened Messages
  import opened Store
  import opened Registry
  import opened Dispatch
  import opened DispatchRows

  // The answer of the surroundings at every position of a handler.
  type World = Pc -> Env

  datatype Final = Final(sv: Server, sent: Option<JobAssigned>)

  function TriesLeft(tries: nat): nat {
    if tries < MAX_DEQUEUE_ATTEMPTS then MAX_DEQUEUE_ATTEMPTS - tries else 0
  }

  // A bound on the calls a handler still makes.
  function CallsLeft(pc: Pc): nat {
    match pc
    case Idle => 0
    case RCheck(_) => 30
    case RDequeue(_, tries) => 12 + 2 * TriesLeft(tries)
    case RGet(_, tries, _) => 11 + 2 * TriesLeft(tries)
    case RAttempt(_) => 10
    case RUrls(_) => 9
    case RAssign(_) => 8
    case RRead(_) => 7
    case RWrite(_) => 6
    case ROutput(_) => 5
    case RMarshal(_) => 4
    case RCount(_) => 2
    case RSend(_) => 1
    case RRevert(_) => 3
    case RClear(_, _) => 2
    case RRequeue(_) => 1
    case SGet(_, _) => 6
    case SMessage(_, _, _) => 5
    case SStreams(_, _, _) => 4
    case SRead(_, _, _, _) => 3
    case SWrite(_, _, _, _) => 2
    case SCount(_) => 1
    case CCreate(_) => 2
    case CEnqueue(_) => 1
  }

  lemma AdvanceDescends(sv: Server, pc: Pc, env: Env)
    requires pc != Idle
    ensures CallsLeft(Advance(sv, pc, env).pc) < CallsLeft(pc)
    ensures Advance(sv, pc, env).sent.Some? ==> Advance(sv, pc, env).pc == Idle
  {}

  // What a handler does from position pc to its end, alone.
  function Finish(sv: Server, pc: Pc, world: World): Final
    decreases CallsLeft(pc)
  {
    if pc == Idle then Final(sv, None)
    else
      var o := Advance(sv, pc, world(pc));
      AdvanceDescends(sv, pc, world(pc));
      if o.sent.Some? then Final(o.sv, o.sent) else Finish(o.sv, o.pc, world)
  }

  // Where an assignment starts once a PENDING row has been read.
  function Begin(w: Work): Pc {
    if w.job.attempt < 1 then RAttempt(w) else RUrls(w)
  }

  // The entry can be read and is PENDING when the handler looks at it.
  predicate Ready(rows: Rows, agent: AgentId, tries: nat, id: JobId, world: World) {
    !world(RGet(agent, tries, id)).fails && id in rows && rows[id].status == Pending
  }

  // The queue answers at try number i.
  predicate Answers(agent: AgentId, i: nat, world: World) {
    !world(RDequeue(agent, i)).fails
  }

  // How many entries the dequeue loop removes from `queue` when it starts at try
  // number `tries`, and whether the last of them is a job to assign.
  function Pick(rows: Rows, queue: seq<JobId>, agent: AgentId, tries: nat, world: World): (nat, bool)
    decreases |queue|
  {
    if tries >= MAX_DEQUEUE_ATTEMPTS || queue == [] || world(RDequeue(agent, tries)).fails then (0, false)
    else if Ready(rows, agent, tries, queue[0], world) then (1, true)
    else
      var rest := Pick(rows, queue[1..], agent, tries + 1, world);
      (rest.0 + 1, rest.1)
  }

  // The loop takes the first entry that is readable and PENDING among those it
  // may look at, skipping only entries that are not; it gives up only after five
  // tries, at the end of the queue, or when the queue fails.
  lemma {:induction false} PickExact(rows: Rows, queue: seq<JobId>, agent: AgentId, tries: nat, world: World)
    ensures var (n, found) := Pick(rows, queue, agent, tries, world);
      && n <= |queue| && n <= TriesLeft(tries)
      && (forall i: nat | i + 1 < n :: !Ready(rows, agent, tries + i, queue[i], world))
      && (forall i | tries <= i < tries + n :: Answers(agent, i, world))
      && (found <==> n > 0 && Ready(rows, agent, tries + n - 1, queue[n - 1], world))
      && (!found ==> n == TriesLeft(tries) || n == |queue| || world(RDequeue(agent, tries + n)).fails)
    decreases |queue|
  {
    var (n, found) := Pick(rows, queue, agent, tries, world);
    if n > 0 && !Ready(rows, agent, tries, queue[0], world) {
      PickExact(rows, queue[1..], agent, tries + 1, world);
      forall i: nat | i + 1 < n ensures !Ready(rows, agent, tries + i, queue[i], world) {
        if i > 0 { assert !Ready(rows, agent, tries + 1 + (i - 1), queue[1..][i - 1], world); }
      }
    }
  }

  // One call, and the rest of the handler.
  lemma FinishStep(sv: Server, pc: Pc, world: World)
    requires pc != Idle
    ensures var o := Advance(sv, pc, world(pc));
      && Finish(sv, pc, world) == (if o.sent.Some? then Final(o.sv, o.sent) else Finish(o.sv, o.pc, world))
      && (o.pc == Idle ==> Finish(o.sv, o.pc, world) == Final(o.sv, None))
  {
    hide Advance;
  }

  lemma FinishIdle(sv: Server, world: World)
    ensures Finish(sv, Idle, world) == Final(sv, None)
  {}

  lemma {:induction false} FinishPicks(sv: Server, agent: AgentId, tries: nat, world: World)
    requires tries < MAX_DEQUEUE_ATTEMPTS
    ensures var (n, found) := Pick(sv.rows, sv.queue, agent, tries, world);
      && n <= |sv.queue| && (found ==> n > 0 && sv.queue[n - 1] in sv.rows)
      && var left := sv.(queue := sv.queue[n..]);
      Finish(sv, RDequeue(agent, tries), world)
      == if !found then Final(left, None)
         else var j := sv.rows[sv.queue[n - 1]];
           Finish(left, Begin(Work(agent, sv.queue[n - 1], j, PlanFor(sv.queue[n - 1], j.spec, j.attempt), "")), world)
    decreases |sv.queue|
  {
    hide Finish, PlanFor;
    DequeueOnce(sv, agent, tries, world);
    if sv.queue != [] && !world(RDequeue(agent, tries)).fails {
      var rest := sv.(queue := sv.queue[1..]);
      GetOnce(rest, agent, tries, sv.queue[0], world);
      if !Ready(sv.rows, agent, tries, sv.queue[0], world) && tries + 1 < MAX_DEQUEUE_ATTEMPTS {
        FinishPicks(rest, agent, tries + 1, world);
      }
    } else {
      assert sv.queue[0..] == sv.queue;
    }
  }

  lemma CheckOnce(sv: Server, agent: AgentId, world: World)
    ensures var info := Lookup(sv.agents, agent, world(RCheck(agent)).now);
      Finish(sv, RCheck(agent), world)
      == if info.None? || info.value.paused || info.value.running >= info.value.max then Final(sv, None)
         else Finish(sv, RDequeue(agent, 0), world)
  {
    hide Finish, PlanFor, Assignment, WithOwner, WithStatus, WithOutput, WithAttempt, WithMessage, WithStreams;
    FinishStep(sv, RCheck(agent), world);
  }

  lemma DequeueOnce(sv: Server, agent: AgentId, tries: nat, world: World)
    ensures Finish(sv, RDequeue(agent, tries), world)
         == if world(RDequeue(agent, tries)).fails || sv.queue == [] then Final(sv, None)
            else Finish(sv.(queue := sv.queue[1..]), RGet(agent, tries, sv.queue[0]), world)
  {
    hide Finish, PlanFor, Assignment, WithOwner, WithStatus, WithOutput, WithAttempt, WithMessage, WithStreams;
    FinishStep(sv, RDequeue(agent, tries), world);
  }

  lemma GetOnce(sv: Server, agent: AgentId, tries: nat, id: JobId, world: World)
    ensures Finish(sv, RGet(agent, tries, id), world)
         == if Ready(sv.rows, agent, tries, id, world)
            then
              var plan := PlanFor(id, sv.rows[id].spec, sv.rows[id].attempt);
              Finish(sv, Begin(Work(agent, id, sv.rows[id], plan, "")), world)
            else if tries + 1 < MAX_DEQUEUE_ATTEMPTS then Finish(sv, RDequeue(agent, tries + 1), world)
            else Final(sv, None)
  {
    hide Finish, PlanFor, Assignment, WithOwner, WithStatus, WithOutput, WithAttempt, WithMessage, WithStreams;
    FinishStep(sv, RGet(agent, tries, id), world);
  }

  // The queue after an attempt to put an id back.
  function PutBack(queue: seq<JobId>, id: JobId, fails: bool): seq<JobId> {
    if fails || id == "" then queue else queue + [id]
  }

  lemma RequeueOnce(sv: Server, id: JobId, world: World)
    ensures Finish(sv, RRequeue(id), world)
         == Final(sv.(queue := PutBack(sv.queue, id, world(RRequeue(id)).fails)), None)
  {
    hide Finish, PlanFor, Assignment, WithOwner, WithStatus, WithOutput, WithAttempt, WithMessage, WithStreams;
    FinishStep(sv, RRequeue(id), world);
  }

  lemma AttemptOnce(sv: Server, w: Work, world: World)
    ensures Finish(sv, RAttempt(w), world)
         == if world(RAttempt(w)).fails then Finish(sv, RRequeue(w.id), world)
            else Finish(sv.(rows := WithAttempt(sv.rows, w.id, 1)), RUrls(w.(job := w.job.(attempt := 1))), world)
  {
    hide Finish, PlanFor, Assignment, WithOwner, WithStatus, WithOutput, WithAttempt, WithMessage, WithStreams;
    FinishStep(sv, RAttempt(w), world);
  }

  lemma UrlsOnce(sv: Server, w: Work, world: World)
    ensures Finish(sv, RUrls(w), world)
         == Finish(sv, if world(RUrls(w)).fails then RRequeue(w.id) else RAssign(w), world)
  {
    hide Finish, PlanFor, Assignment, WithOwner, WithStatus, WithOutput, WithAttempt, WithMessage, WithStreams;
    FinishStep(sv, RUrls(w), world);
  }

  lemma AssignOnce(sv: Server, w: Work, world: World)
    ensures var env := world(RAssign(w));
      Finish(sv, RAssign(w), world)
      == if env.fails then Finish(sv, RRequeue(w.id), world)
         else Finish(sv.(rows := WithOwner(sv.rows, w.id, w.agent, env.uuid)), RRead(w.(lease := env.uuid)), world)
  {
    hide Finish, PlanFor, Assignment, WithOwner, WithStatus, WithOutput, WithAttempt, WithMessage, WithStreams;
    FinishStep(sv, RAssign(w), world);
  }

  lemma StampOnce(sv: Server, w: Work, world: World)
    ensures Finish(sv, RRead(w), world)
         == if StatusRefusal(sv.rows, w.id, Assigned, world(RRead(w)).fails, world(RWrite(w)).fails).Some?
            then Finish(sv, RClear(w, false), world)
            else Finish(sv.(rows := WithStatus(sv.rows, w.id, Assigned)), ROutput(w), world)
  {
    hide Finish, PlanFor, Assignment, WithOwner, WithStatus, WithOutput, WithAttempt, WithMessage, WithStreams;
    FinishStep(sv, RRead(w), world);
    FinishStep(sv, RWrite(w), world);
  }

  lemma OutputOnce(sv: Server, w: Work, world: World)
    ensures Finish(sv, ROutput(w), world)
         == if world(ROutput(w)).fails then Finish(sv, RRevert(w), world)
            else Finish(sv.(rows := WithOutput(sv.rows, w.id, w.plan.key, w.plan.prefix)), RMarshal(w), world)
  {
    hide Finish, PlanFor, Assignment, WithOwner, WithStatus, WithOutput, WithAttempt, WithMessage, WithStreams;
    FinishStep(sv, ROutput(w), world);
  }

  lemma MarshalOnce(sv: Server, w: Work, world: World)
    ensures Finish(sv, RMarshal(w), world)
         == if world(RMarshal(w)).fails then Finish(sv, RRevert(w), world)
            else Final(sv.(agents := Counted(sv.agents, w.agent, 1, world(RCount(w)).now)), Some(Assignment(w)))
  {
    hide Finish, PlanFor, Assignment, WithOwner, WithStatus, WithOutput, WithAttempt, WithMessage, WithStreams;
    FinishStep(sv, RMarshal(w), world);
    FinishStep(sv, RCount(w), world);
    FinishStep(sv.(agents := Counted(sv.agents, w.agent, 1, world(RCount(w)).now)), RSend(w), world);
  }

  lemma RevertOnce(sv: Server, w: Work, world: World)
    ensures Finish(sv, RRevert(w), world) == Finish(sv, RClear(w, true), world)
    ensures StatusRefusal(sv.rows, w.id, Pending, world(RRevert(w)).fails, false).Some?
  {
    hide Finish, PlanFor, Assignment, WithOwner, WithStatus, WithOutput, WithAttempt, WithMessage, WithStreams;
    FinishStep(sv, RRevert(w), world);
  }

  lemma ClearOnce(sv: Server, w: Work, committed: bool, world: World)
    ensures Finish(sv, RClear(w, committed), world)
         == Finish(if world(RClear(w, committed)).fails then sv else sv.(rows := WithOwner(sv.rows, w.id, "", "")),
                   RRequeue(w.id), world)
  {
    hide Finish, PlanFor, Assignment, WithOwner, WithStatus, WithOutput, WithAttempt, WithMessage, WithStreams;
    FinishStep(sv, RClear(w, committed), world);
  }

  // Why a report is dropped right after the job has been read, if it is.
  predicate Dropped(rows: Rows, agent: AgentId, m: JobStatus, fails: bool) {
    || fails || m.id !in rows || rows[m.id].owner != agent || m.attempt != rows[m.id].attempt
    || rows[m.id].status.IsTerminal()
  }

  lemma ReportOnce(sv: Server, agent: AgentId, m: JobStatus, world: World)
    ensures Finish(sv, SGet(agent, m), world)
         == if Dropped(sv.rows, agent, m, world(SGet(agent, m)).fails) then Final(sv, None)
            else
              var j := sv.rows[m.id];
              Finish(sv, if m.message != "" then SMessage(agent, m, j) else AfterMessage(agent, m, j), world)
  {
    hide Finish, PlanFor, Assignment, WithOwner, WithStatus, WithOutput, WithAttempt, WithMessage, WithStreams;
    FinishStep(sv, SGet(agent, m), world);
  }

  lemma MessageOnce(sv: Server, agent: AgentId, m: JobStatus, j: Job, world: World)
    ensures Finish(sv, SMessage(agent, m, j), world)
         == Finish(if world(SMessage(agent, m, j)).fails then sv
                   else sv.(rows := WithMessage(sv.rows, m.id, m.message)),
                   AfterMessage(agent, m, j), world)
  {
    hide Finish, PlanFor, Assignment, WithOwner, WithStatus, WithOutput, WithAttempt, WithMessage, WithStreams;
    FinishStep(sv, SMessage(agent, m, j), world);
  }

  lemma StreamsOnce(sv: Server, agent: AgentId, m: JobStatus, j: Job, world: World)
    ensures Finish(sv, SStreams(agent, m, j), world)
         == Finish(if world(SStreams(agent, m, j)).fails then sv
                   else sv.(rows := WithStreams(sv.rows, m.id, m.stdout, m.stderr)),
                   SRead(agent, m, j, Target(m, j)), world)
  {
    hide Finish, PlanFor, Assignment, WithOwner, WithStatus, WithOutput, WithAttempt, WithMessage, WithStreams;
    FinishStep(sv, SStreams(agent, m, j), world);
  }

  lemma MoveOnce(sv: Server, agent: AgentId, m: JobStatus, j: Job, to: Status, world: World)
    requires to.IsValid()
    ensures var readFails, writeFails := world(SRead(agent, m, j, to)).fails, world(SWrite(agent, m, j, to)).fails;
      var refused := StatusRefusal(sv.rows, m.id, to, readFails, writeFails);
      Finish(sv, SRead(agent, m, j, to), world)
      == if refused.Some? then Final(sv, None)
         else Finish(sv.(rows := WithStatus(sv.rows, m.id, to)), if to.IsTerminal() then SCount(agent) else Idle, world)
  {
    hide Finish, Status.CanTransitionTo, WithStatus;
    FinishStep(sv, SRead(agent, m, j, to), world);
    FinishStep(sv, SWrite(agent, m, j, to), world);
    FinishIdle(sv.(rows := WithStatus(sv.rows, m.id, to)), world);
  }

  lemma CountOnce(sv: Server, agent: AgentId, world: World)
    ensures var info := Lookup(sv.agents, agent, world(SCount(agent)).now);
      Finish(sv, SCount(agent), world)
      == Final(if info.Some? && info.value.running > 0
               then sv.(agents := Counted(sv.agents, agent, -1, world(SCount(agent)).now)) else sv, None)
  {
    hide Finish, PlanFor, Assignment, WithOwner, WithStatus, WithOutput, WithAttempt, WithMessage, WithStreams;
    FinishStep(sv, SCount(agent), world);
  }

  // Appends to a run the calls that take one thread to its end.
  ghost function Alone(s: State, t: Thread, world: World): seq<Action>
    decreases CallsLeft(PcOf(s, t))
  {
    if PcOf(s, t) == Idle then []
    else
      AdvanceDescends(s.sv, PcOf(s, t), world(PcOf(s, t)));
      [Run(t, world(PcOf(s, t)))] + Alone(Step(s, Run(t, world(PcOf(s, t)))), t, world)
  }

  // The state after a list of actions.
  ghost function Steps(s: State, actions: seq<Action>): State
    decreases |actions|
  {
    if actions == [] then s else Steps(Step(s, actions[0]), actions[1..])
  }

  ghost predicate AllEnabled(s: State, actions: seq<Action>)
    decreases |actions|
  {
    actions == [] || (Enabled(s, actions[0]) && AllEnabled(Step(s, actions[0]), actions[1..]))
  }

  // An uninterrupted handler is one of the interleavings.
  lemma {:induction false} FinishIsInterleaving(s: State, t: Thread, world: World)
    ensures AllEnabled(s, Alone(s, t, world))
    ensures var f := Finish(s.sv, PcOf(s, t), world); var s' := Steps(s, Alone(s, t, world));
      && s'.sv == f.sv && PcOf(s', t) == Idle
      && LogOf(s', t) == LogOf(s, t) + (if f.sent.Some? then [f.sent.value] else [])
      && (forall u | u != t :: PcOf(s', u) == PcOf(s, u) && LogOf(s', u) == LogOf(s, u))
    decreases CallsLeft(PcOf(s, t))
  {
    hide Advance, Finish, CallsLeft;
    var pc := PcOf(s, t);
    FinishIdle(s.sv, world);
    if pc != Idle {
      AdvanceDescends(s.sv, pc, world(pc));
      FinishStep(s.sv, pc, world);
      var a := Run(t, world(pc));
      FinishIsInterleaving(Step(s, a), t, world);
      assert Alone(s, t, world)[1..] == Alone(Step(s, a), t, world);
    }
  }

  // Uninterrupted, a handler freezes terminal rows and moves statuses forward
  // only, whatever it was asked to report.
  lemma {:induction false} FinishFreezes(sv: Server, dispatched: map<JobId, Thread>, t: Thread, pc: Pc, world: World)
    requires PcInv(sv.rows, dispatched, t, pc)
    ensures forall id | id in sv.rows ::
              && id in Finish(sv, pc, world).sv.rows
              && (sv.rows[id].status.IsTerminal() ==> Finish(sv, pc, world).sv.rows[id] == sv.rows[id])
              && sv.rows[id].status.Rank() <= Finish(sv, pc, world).sv.rows[id].status.Rank()
    decreases CallsLeft(pc)
  {
    if pc != Idle {
      var o := Advance(sv, pc, world(pc));
      AdvanceDescends(sv, pc, world(pc));
      AdvanceRows(sv, dispatched, t, pc, world(pc), o);
      forall id | id in sv.rows ensures id in o.sv.rows && LegalChange(sv.rows[id], o.sv.rows[id]) {
        if Touched(pc) != Some(id) { assert SameRow(sv.rows, o.sv.rows, id); }
      }
      forall id | id in sv.rows ensures sv.rows[id].status.Rank() <= o.sv.rows[id].status.Rank() {
        assert LegalChange(sv.rows[id], o.sv.rows[id]);
        TransitionsClimb(sv.rows[id].status, o.sv.rows[id].status);
      }
      if o.sent.None? { FinishFreezes(o.sv, dispatched, t, o.pc, world); }
    }
  }

  // The same for any report, also one on a job that was never sent to the agent.
  lemma AnyMessageFreezes(sv: Server, agent: AgentId, m: JobStatus, world: World, id: JobId)
    requires id in sv.rows
    ensures forall pc | pc == SGet(agent, m) || pc == RCheck(agent) ::
              var rows := Finish(sv, pc, world).sv.rows;
              && id in rows
              && (sv.rows[id].status.IsTerminal() ==> rows[id] == sv.rows[id])
              && sv.rows[id].status.Rank() <= rows[id].status.Rank()
  {
    hide Finish;
    FinishFreezes(sv, map[m.id := Conn(agent)], Conn(agent), SGet(agent, m), world);
    FinishFreezes(sv, map[], Conn(agent), RCheck(agent), world);
  }

  // Only row id differs, and there only status, message and output streams.
  ghost predicate OnlyProgress(rows: Rows, rows': Rows, id: JobId) {
    && rows'.Keys == rows.Keys
    && (forall i | i in rows && i != id :: rows'[i] == rows[i])
    && (id in rows ==> SameClaim(rows[id], rows'[id]) && rows'[id].id == rows[id].id && rows'[id].spec == rows[id].spec)
  }

  lemma MoveEffect(sv: Server, agent: AgentId, m: JobStatus, j: Job, to: Status, world: World)
    requires m.id in sv.rows && to.IsValid()
    ensures var f := Finish(sv, SRead(agent, m, j, to), world);
      && f.sent.None? && f.sv.queue == sv.queue && OnlyProgress(sv.rows, f.sv.rows, m.id)
      && (f.sv.rows[m.id].status == sv.rows[m.id].status || f.sv.rows[m.id].status == to)
  {
    hide Finish, Status.CanTransitionTo, Counted;
    MoveOnce(sv, agent, m, j, to, world);
    var moved := sv.(rows := WithStatus(sv.rows, m.id, to));
    CountOnce(moved, agent, world);
    FinishIdle(moved, world);
  }

  lemma StreamsProgress(rows: Rows, id: JobId, stdout: string, stderr: string)
    requires id in rows
    ensures OnlyProgress(rows, rows, id) && OnlyProgress(rows, WithStreams(rows, id, stdout, stderr), id)
    ensures WithStreams(rows, id, stdout, stderr)[id].status == rows[id].status
  {}

  lemma ProgressAdds(a: Rows, b: Rows, c: Rows, id: JobId)
    requires OnlyProgress(a, b, id) && OnlyProgress(b, c, id)
    ensures OnlyProgress(a, c, id)
  {}

  lemma TargetValid(m: JobStatus, j: Job)
    ensures Target(m, j).IsValid() && (m.status != STATUS_SUCCEEDED ==> Target(m, j) == StatusFromProto(m.status))
  {}

  lemma SettleEffect(sv: Server, agent: AgentId, m: JobStatus, j: Job, world: World)
    requires m.id in sv.rows
    ensures var f := Finish(sv, AfterMessage(agent, m, j), world);
      && f.sent.None? && f.sv.queue == sv.queue && OnlyProgress(sv.rows, f.sv.rows, m.id)
      && (f.sv.rows[m.id].status == sv.rows[m.id].status || f.sv.rows[m.id].status == Target(m, j))
  {
    hide Finish, Status.CanTransitionTo, OnlyProgress, WithStreams, Target;
    FinishIdle(sv, world);
    StreamsOnce(sv, agent, m, j, world);
    StreamsProgress(sv.rows, m.id, m.stdout, m.stderr);
    var streamed :=
      if world(SStreams(agent, m, j)).fails then sv
      else sv.(rows := WithStreams(sv.rows, m.id, m.stdout, m.stderr));
    TargetValid(m, j);
    MoveEffect(streamed, agent, m, j, Target(m, j), world);
    ProgressAdds(sv.rows, streamed.rows, Finish(streamed, SRead(agent, m, j, Target(m, j)), world).sv.rows, m.id);
    MoveEffect(sv, agent, m, j, StatusFromProto(m.status), world);
  }

  // Whatever an agent reports, in whatever words: the handler touches at most the row the
  // report names, only if that row is the agent's, in that attempt and not terminal; it
  // touches only status, message and output streams; and it lets the job succeed only with no
  // output key or the stored one.
  lemma ReportsTouchOwnRow(sv: Server, agent: AgentId, m: JobStatus, world: World)
    ensures var f := Finish(sv, SGet(agent, m), world);
      && f.sent.None? && f.sv.queue == sv.queue && OnlyProgress(sv.rows, f.sv.rows, m.id)
      && (f.sv.rows != sv.rows ==>
            && m.id in sv.rows && sv.rows[m.id].owner == agent && sv.rows[m.id].attempt == m.attempt
            && !sv.rows[m.id].status.IsTerminal())
      && (m.id in sv.rows && f.sv.rows[m.id].status == Succeeded && sv.rows[m.id].status != Succeeded ==>
            m.status == STATUS_SUCCEEDED && (m.outputKey == "" || m.outputKey == sv.rows[m.id].outputKey))
  {
    hide Finish, AfterMessage;
    ReportOnce(sv, agent, m, world);
    if !Dropped(sv.rows, agent, m, world(SGet(agent, m)).fails) {
      var j := sv.rows[m.id];
      MessageOnce(sv, agent, m, j, world);
      var noted :=
        if world(SMessage(agent, m, j)).fails then sv
        else sv.(rows := WithMessage(sv.rows, m.id, m.message));
      SettleEffect(sv, agent, m, j, world);
      SettleEffect(noted, agent, m, j, world);
    }
  }
}
