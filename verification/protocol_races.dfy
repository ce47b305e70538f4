// Why the side conditions are there: executions in which one is dropped.
module ProtocolRaces {
  import opened Options
  import opened JobModel
  import opened Messages
  import opened Store
  import opened Registry
  import opened Dispatch
  import opened DispatchCapacity
  import opened DispatchConservation
  import opened Handlers
  import opened Compensation
  import JobApi
  import opened Protocol
  import opened ProtocolRoom

  // All that happens is calm for the agent but for one action, `stray`, which is not.
  ghost predicate CalmBut(states: seq<Sys>, acts: seq<Act>, a: AgentId, stray: Option<Act>)
    requires |states| == |acts| + 1
  {
    match stray
    case None => forall i | 0 <= i < |acts| :: Calm(states[i], acts[i], a)
    case Some(x) =>
      exists j | 0 <= j < |acts| && acts[j] == x ::
        !Calm(states[j], x, a) && forall i | 0 <= i < |acts| && i != j :: Calm(states[i], acts[i], a)
  }

  ghost predicate Leads(states: seq<Sys>, acts: seq<Act>, a: AgentId, stray: Option<Act>, s: Sys) {
    IsExecution(states, acts) && CalmBut(states, acts, a, stray) && states[|acts|] == s
  }

  ghost predicate Reaches(a: AgentId, stray: Option<Act>, s: Sys) {
    exists states, acts :: Leads(states, acts, a, stray, s)
  }

  lemma Extends(a: AgentId, stray: Option<Act>, s: Sys, act: Act)
    requires Reaches(a, stray, s) && Possible(s, act) && Calm(s, act, a)
    ensures Reaches(a, stray, Next(s, act))
  {
    hide Possible, Next, Calm, SysStart;
    var states, acts :| Leads(states, acts, a, stray, s);
    var states', acts' := states + [Next(s, act)], acts + [act];
    if stray.Some? {
      var j :| 0 <= j < |acts| && acts[j] == stray.value && !Calm(states[j], acts[j], a)
        && forall i | 0 <= i < |acts| && i != j :: Calm(states[i], acts[i], a);
      assert acts'[j] == stray.value && !Calm(states'[j], acts'[j], a);
    }
    assert Leads(states', acts', a, stray, Next(s, act));
  }

  // The one action that is not calm.
  lemma Strays(a: AgentId, s: Sys, act: Act)
    requires Reaches(a, None, s) && Possible(s, act) && !Calm(s, act, a)
    ensures Reaches(a, Some(act), Next(s, act))
  {
    hide Possible, Next, Calm, SysStart;
    var states, acts :| Leads(states, acts, a, None, s);
    var states', acts' := states + [Next(s, act)], acts + [act];
    assert acts'[|acts|] == act && states'[|acts|] == s;
    assert Leads(states', acts', a, Some(act), Next(s, act));
  }

  // Any handler can run to its end without interruption.
  lemma {:induction false} RunsOut(a: AgentId, stray: Option<Act>, s: Sys, t: Thread, world: World)
    requires Reaches(a, stray, s) && PcOf(s.d, t) != Idle
    ensures var f := Finish(s.d.sv, PcOf(s.d, t), world); Reaches(a, stray, Called(s, t, Outcome(f.sv, Idle, f.sent)))
    decreases CallsLeft(PcOf(s.d, t))
  {
    hide Reaches, Advance, Finish, CallsLeft;
    var pc := PcOf(s.d, t);
    var o := Advance(s.d.sv, pc, world(pc));
    AdvanceDescends(s.d.sv, pc, world(pc));
    FinishStep(s.d.sv, pc, world);
    Extends(a, stray, s, Call(t, world(pc)));
    var next := Called(s, t, o);
    assert Next(s, Call(t, world(pc))) == next;
    hide Next, Called;
    if o.pc != Idle {
      CalledTwice(s, t, o, o);
      RunsOut(a, stray, next, t, world);
      var f := Finish(o.sv, o.pc, world);
      CalledTwice(s, t, o, Outcome(f.sv, Idle, f.sent));
    }
  }

  lemma CalledTwice(s: Sys, t: Thread, o: Outcome, p: Outcome)
    requires o.sent.None?
    ensures Called(Called(s, t, o), t, p) == Called(s, t, p)
    ensures PcOf(Called(s, t, o).d, t) == o.pc && Called(s, t, o).d.sv == o.sv
  {
    assert s.d.threads[t := o.pc][t := p.pc] == s.d.threads[t := p.pc];
  }

  // Nothing fails, and no time passes.
  const FINE: World := pc => Env(false, 0, "lease")

  const NO_SPEC := Spec("", "", "", "", "run", COMMAND, "", "", "", "", 0, "")

  function NewJob(id: JobId): Job {
    Job(id, NO_SPEC, Pending, "", "", 1, "", "", "", "", "")
  }

  predicate RowIs(s: Sys, id: JobId, status: Status, owner: AgentId) {
    && id in s.d.sv.rows && s.d.sv.rows[id].status == status && s.d.sv.rows[id].owner == owner
    && s.d.sv.rows[id].attempt == 1
  }

  // A state in which the gateway has nothing at hand for the agent.
  predicate Resting(s: Sys, a: AgentId, queue: seq<JobId>, counted: int, up: seq<Up>, down: seq<JobAssigned>,
      c: AgentState) {
    && s.d.sv.queue == queue && PcOf(s.d, Conn(a)) == Idle
    && a in s.d.sv.agents && s.d.sv.agents[a] == Info("host", 1, false, counted, 0, 0)
    && UpOf(s, a) == up && DownOf(s, a) == down
    && a in s.clients && s.clients[a] == c
  }

  // What a request does when the job at the head of the queue can be given out.
  lemma Dispatches(sv: Server, a: AgentId, id: JobId)
    requires a in sv.agents && sv.agents[a] == Info("host", 1, false, 0, 0, 0)
    requires sv.queue != [] && sv.queue[0] == id != ""
    requires id in sv.rows && sv.rows[id].status == Pending && sv.rows[id].attempt == 1
    ensures var f := Finish(sv, RCheck(a), FINE);
      && f.sent.Some? && f.sent.value.id == id && f.sent.value.attempt == 1 && f.sv.queue == sv.queue[1..]
      && id in f.sv.rows && f.sv.rows[id].status == Assigned && f.sv.rows[id].owner == a
      && f.sv.rows[id].attempt == 1
      && (forall i | i in sv.rows && i != id :: i in f.sv.rows && f.sv.rows[i] == sv.rows[i])
      && f.sv.agents == sv.agents[a := Info("host", 1, false, 1, 0, 0)]
  {
    hide Finish, PlanFor;
    CheckOnce(sv, a, FINE);
    FinishPicks(sv, a, 0, FINE);
    var left := sv.(queue := sv.queue[1..]);
    var w := WorkOn(left, a, id);
    CommitsOrStrands(left, a, id, FINE);
    AttemptStays(left, a, id);
  }

  lemma AttemptStays(sv: Server, a: AgentId, id: JobId)
    requires id != "" && id in sv.rows && sv.rows[id].status == Pending && sv.rows[id].attempt == 1
    ensures var f := Finish(sv, Begin(WorkOn(sv, a, id)), FINE); id in f.sv.rows && f.sv.rows[id].attempt == 1
    ensures Assignment(Leased(WorkOn(sv, a, id), FINE)).attempt == 1
  {
    hide Finish;
    var w := WorkOn(sv, a, id);
    UrlsOnce(sv, w, FINE);
    AssignOnce(sv, w, FINE);
    var l := Leased(w, FINE);
    var claimed := sv.(rows := WithOwner(sv.rows, id, a, "lease"));
    StampOnce(claimed, l, FINE);
    var stamped := claimed.(rows := WithStatus(claimed.rows, id, Assigned));
    OutputOnce(stamped, l, FINE);
    MarshalOnce(stamped.(rows := WithOutput(stamped.rows, id, l.plan.key, l.plan.prefix)), l, FINE);
  }

  // What a report with a message and no output does.
  lemma Applies(sv: Server, a: AgentId, m: JobStatus)
    requires a in sv.agents && sv.agents[a] == Info("host", 1, false, 1, 0, 0)
    requires m.id in sv.rows && sv.rows[m.id].owner == a && sv.rows[m.id].attempt == m.attempt
    requires m.message != "" && m.stdout == "" && m.stderr == ""
    requires (m.status == STATUS_RUNNING && sv.rows[m.id].status == Assigned)
             || (m.status == STATUS_FAILED && sv.rows[m.id].status == Running)
    ensures var f := Finish(sv, SGet(a, m), FINE);
      && f.sent.None? && f.sv.queue == sv.queue
      && m.id in f.sv.rows && f.sv.rows[m.id].status == StatusFromProto(m.status)
      && f.sv.rows[m.id].owner == a && f.sv.rows[m.id].attempt == m.attempt
      && (forall i | i in sv.rows && i != m.id :: i in f.sv.rows && f.sv.rows[i] == sv.rows[i])
      && f.sv.agents == if m.status == STATUS_FAILED then sv.agents[a := Info("host", 1, false, 0, 0, 0)] else sv.agents
  {
    hide Finish;
    var j := sv.rows[m.id];
    ReportOnce(sv, a, m, FINE);
    MessageOnce(sv, a, m, j, FINE);
    var noted := sv.(rows := WithMessage(sv.rows, m.id, m.message));
    if m.status == STATUS_RUNNING {
      MoveOnce(noted, a, m, j, Running, FINE);
      FinishIdle(noted.(rows := WithStatus(noted.rows, m.id, Running)), FINE);
    } else {
      StreamsOnce(noted, a, m, j, FINE);
      var streamed := noted.(rows := WithStreams(noted.rows, m.id, "", ""));
      MoveOnce(streamed, a, m, j, Failed, FINE);
      CountOnce(streamed.(rows := WithStatus(streamed.rows, m.id, Failed)), a, FINE);
    }
  }

  const NOTHING := Sys(State(Server(map[], [], map[]), map[], {}, map[], map[]), map[], map[], map[])

  function FreshClient(): AgentState {
    AgentState(0, 1, false, [])
  }

  // No handler is under way, and nothing has been sent yet.
  ghost predicate Untouched(s: Sys) {
    s.d.dispatched == map[] && forall t | t in s.d.threads :: s.d.threads[t] == Idle
  }

  // Two jobs have been posted and the agent has joined.
  lemma Opening(a: AgentId) returns (s: Sys)
    requires a != ""
    ensures Reaches(a, None, s) && Resting(s, a, ["1", "2"], 0, [], [], FreshClient()) && Untouched(s)
    ensures RowIs(s, "1", Pending, "") && RowIs(s, "2", Pending, "")
  {
    hide Finish, Reaches;
    NothingReached(a);
    s := NOTHING;
    Extends(a, None, s, Join(a, "host", 1, 0));
    s := Next(s, Join(a, "host", 1, 0));
    assert Resting(s, a, [], 0, [], [], FreshClient()) && s.d.sv.rows == map[] && s.d.ids == {};
    s := Posted(a, s, 0, "1", [], FreshClient());
    s := Posted(a, s, 1, "2", ["1"], FreshClient());
  }

  lemma NothingReached(a: AgentId)
    ensures Reaches(a, None, NOTHING)
  {
    assert Leads([NOTHING], [], a, None, NOTHING);
  }

  lemma Posted(a: AgentId, s: Sys, n: nat, id: JobId, queue: seq<JobId>, c: AgentState) returns (s': Sys)
    requires Reaches(a, None, s) && Resting(s, a, queue, 0, [], [], c) && Untouched(s)
    requires id != "" && id !in s.d.ids && id !in s.d.sv.rows
    ensures Reaches(a, None, s') && Resting(s', a, queue + [id], 0, [], [], c) && Untouched(s')
    ensures s'.d.sv.rows == s.d.sv.rows[id := NewJob(id)] && s'.d.ids == s.d.ids + {id}
  {
    hide Finish, Reaches;
    var job := NewJob(id);
    Extends(a, None, s, Post(n, job));
    var asked := Next(s, Post(n, job));
    assert asked == s.(d := s.d.(threads := s.d.threads[Http(n) := CCreate(job)], ids := s.d.ids + {id}));
    hide Next, Possible, Calm;
    JobApi.CreateOnce(asked.d.sv, job, FINE);
    RunsOut(a, None, asked, Http(n), FINE);
    var f := Finish(asked.d.sv, CCreate(job), FINE);
    s' := Called(asked, Http(n), Outcome(f.sv, Idle, f.sent));
  }

  // The agent has asked for a job.
  lemma Asking(a: AgentId) returns (s: Sys)
    requires a != ""
    ensures Reaches(a, None, s) && Resting(s, a, ["1"] + ["2"], 0, [RequestUp] + [], [], FreshClient()) && Untouched(s)
    ensures RowIs(s, "1", Pending, "") && RowIs(s, "2", Pending, "")
  {
    hide Reaches;
    s := Opening(a);
    Extends(a, None, s, Poll(a));
    s := Next(s, Poll(a));
  }

  // The gateway turns to the request or report at the head of the agent's channel.
  lemma TurnsTo(a: AgentId, stray: Option<Act>, s: Sys, x: Up, rest: seq<Up>, queue: seq<JobId>, counted: int,
                down: seq<JobAssigned>, c: AgentState)
    returns (heard: Sys)
    requires a != "" && Reaches(a, stray, s) && Resting(s, a, queue, counted, [x] + rest, down, c)
    requires x.RequestUp? || (x.StatusUp? && x.m.id != "")
    ensures Reaches(a, stray, heard) && PcOf(heard.d, Conn(a)) == if x.RequestUp? then RCheck(a) else SGet(a, x.m)
    ensures heard.d.sv == s.d.sv && heard.clients == s.clients && UpOf(heard, a) == rest
    ensures DownOf(heard, a) == DownOf(s, a)
  {
    hide Reaches;
    Extends(a, stray, s, Serve(a, 0));
    heard := Next(s, Serve(a, 0));
    assert ([x] + rest)[1..] == rest;
  }

  // The gateway sends the job at the head of the queue.
  lemma Answered(a: AgentId, stray: Option<Act>, s: Sys, id: JobId, queue: seq<JobId>, rest: seq<Up>,
                 down: seq<JobAssigned>, c: AgentState)
    returns (s': Sys, m: JobAssigned)
    requires a != "" && Reaches(a, stray, s) && Resting(s, a, [id] + queue, 0, [RequestUp] + rest, down, c)
    requires id != "" && RowIs(s, id, Pending, "")
    ensures Reaches(a, stray, s') && Resting(s', a, queue, 1, rest, down + [m], c)
    ensures m.id == id && m.attempt == 1 && RowIs(s', id, Assigned, a)
    ensures forall i, st, o | i != id && RowIs(s, i, st, o) :: RowIs(s', i, st, o)
  {
    hide Finish, Reaches, Assignment;
    hide Next, Possible, Calm;
    var heard := TurnsTo(a, stray, s, RequestUp, rest, [id] + queue, 0, down, c);
    Dispatches(heard.d.sv, a, id);
    RunsOut(a, stray, heard, Conn(a), FINE);
    var f := Finish(heard.d.sv, RCheck(a), FINE);
    s' := Called(heard, Conn(a), Outcome(f.sv, Idle, f.sent));
    m := f.sent.value;
  }

  // The gateway applies the report at the head of the agent's channel.
  lemma Applied(a: AgentId, stray: Option<Act>, s: Sys, m: JobStatus, rest: seq<Up>, queue: seq<JobId>, c: AgentState)
    returns (s': Sys)
    requires a != "" && Reaches(a, stray, s) && Resting(s, a, queue, 1, [StatusUp(m)] + rest, [], c)
    requires m.id != "" && m.attempt == 1 && m.message != "" && m.stdout == "" && m.stderr == ""
    requires (m.status == STATUS_RUNNING && RowIs(s, m.id, Assigned, a))
             || (m.status == STATUS_FAILED && RowIs(s, m.id, Running, a))
    ensures Reaches(a, stray, s') && Resting(s', a, queue, if m.status == STATUS_FAILED then 0 else 1, rest, [], c)
    ensures RowIs(s', m.id, StatusFromProto(m.status), a)
    ensures forall i, st, o | i != m.id && RowIs(s, i, st, o) :: RowIs(s', i, st, o)
  {
    hide Finish, Reaches;
    hide Next, Possible, Calm;
    var heard := TurnsTo(a, stray, s, StatusUp(m), rest, queue, 1, [], c);
    Applies(heard.d.sv, a, m);
    RunsOut(a, stray, heard, Conn(a), FINE);
    var f := Finish(heard.d.sv, SGet(a, m), FINE);
    s' := Called(heard, Conn(a), Outcome(f.sv, Idle, f.sent));
  }

  // The agent takes a job in.
  lemma Accepted(a: AgentId, stray: Option<Act>, s: Sys, queue: seq<JobId>, counted: int, up: seq<Up>,
                 m: JobAssigned, down: seq<JobAssigned>, c: AgentState)
    returns (s': Sys)
    requires Reaches(a, stray, s) && Resting(s, a, queue, counted, up, [m] + down, c)
    ensures Reaches(a, stray, s') && s'.d == s.d
    ensures if c.CanAccept() then Resting(s', a, queue, counted, up, down, Received(c, m))
            else JobsOf(s', a) == c.jobs + [Delivery(m, TurnedAway)]
  {
    hide Reaches;
    Extends(a, stray, s, Deliver(a));
    s' := Next(s, Deliver(a));
  }

  // ---- A request made late.

  const BROKEN := Failure("exit status 1", "", "")

  // The worker runs the job and reports, but has not yet freed its slot; meanwhile the
  // request loop, which saw the slot free before the job came, sends its request.
  lemma ReportsAndAsks(a: AgentId, s: Sys, m: JobAssigned, queue: seq<JobId>) returns (s': Sys)
    requires Reaches(a, None, s) && Resting(s, a, queue, 1, [], [m], FreshClient())
    ensures var up := [StatusUp(RunningReport(m)), StatusUp(FinalReport(m, BROKEN)), RequestUp];
      && Reaches(a, Some(LatePoll(a)), s')
      && Resting(s', a, queue, 1, up, [], AgentState(1, 1, false, [Delivery(m, Reporting(FinalReport(m, BROKEN)))]))
    ensures s'.d == s.d
  {
    hide Reaches;
    s' := Accepted(a, None, s, queue, 1, [], m, [], FreshClient()) by { assert [m] == [m] + []; }
    Extends(a, None, s', Progress(a, 0, BROKEN));
    s' := Next(s', Progress(a, 0, BROKEN));
    Extends(a, None, s', Progress(a, 0, BROKEN));
    s' := Next(s', Progress(a, 0, BROKEN));
    Strays(a, s', LatePoll(a));
    s' := Next(s', LatePoll(a));
  }

  // The gateway has applied both reports and counts no job any more.
  lemma Freed(a: AgentId) returns (s: Sys, m: JobAssigned)
    requires a != ""
    ensures Reaches(a, Some(LatePoll(a)), s) && RowIs(s, "2", Pending, "")
    ensures Resting(s, a, ["2"], 0, [RequestUp], [],
                    AgentState(1, 1, false, [Delivery(m, Reporting(FinalReport(m, BROKEN)))]))
  {
    hide Reaches, FreshClient;
    var late := Some(LatePoll(a));
    s := Asking(a);
    s, m := Answered(a, None, s, "1", ["2"], [], [], FreshClient());
    assert [] + [m] == [m];
    s := ReportsAndAsks(a, s, m, ["2"]);
    var c := AgentState(1, 1, false, [Delivery(m, Reporting(FinalReport(m, BROKEN)))]);
    s := Applied(a, late, s, RunningReport(m), [StatusUp(FinalReport(m, BROKEN)), RequestUp], ["2"], c);
    s := Applied(a, late, s, FinalReport(m, BROKEN), [RequestUp], ["2"], c);
  }

  // One request sent between a worker's final report and its decrement is enough for an
  // agent with one slot to be sent a job that finds no room: the report has freed its place
  // at the gateway, while its own slot is not free yet.
  lemma LateRequestsFindNoRoom(a: AgentId) returns (states: seq<Sys>, acts: seq<Act>)
    requires a != ""
    ensures IsExecution(states, acts) && CalmBut(states, acts, a, Some(LatePoll(a)))
    ensures |JobsOf(states[|acts|], a)| == 2 && JobsOf(states[|acts|], a)[1].phase.TurnedAway?
  {
    hide Reaches, Leads, IsExecution, CalmBut, Next, Possible, Advance, RowIs, SysStart;
    var late := Some(LatePoll(a));
    var s, m := Freed(a);
    var c := AgentState(1, 1, false, [Delivery(m, Reporting(FinalReport(m, BROKEN)))]);
    assert ["2"] == ["2"] + [] && [RequestUp] == [RequestUp] + [];
    var n;
    s, n := Answered(a, late, s, "2", [], [], [], c);
    assert [] + [n] == [n] + [];
    s := Accepted(a, late, s, [], 1, [], n, [], c);
    states, acts := Unfolded(a, late, s);
  }

  lemma Unfolded(a: AgentId, stray: Option<Act>, s: Sys) returns (states: seq<Sys>, acts: seq<Act>)
    requires Reaches(a, stray, s)
    ensures IsExecution(states, acts) && CalmBut(states, acts, a, stray) && states[|acts|] == s
  {
    states, acts :| Leads(states, acts, a, stray, s);
  }

  // ---- A heartbeat overtaken by a job.

  // A heartbeat and a second request were sent before the job arrived, and the heartbeat is
  // handled after the job was counted.
  lemma Forgotten(a: AgentId) returns (s: Sys, m: JobAssigned)
    requires a != ""
    ensures Reaches(a, Some(Serve(a, 0)), s) && Resting(s, a, ["2"], 0, [RequestUp], [m], FreshClient())
    ensures RowIs(s, "1", Assigned, a) && RowIs(s, "2", Pending, "")
  {
    hide Reaches;
    s := Asking(a);
    Extends(a, None, s, Beat(a));
    s := Next(s, Beat(a));
    Extends(a, None, s, Poll(a));
    s := Next(s, Poll(a));
    var rest := [BeatUp(false, 0), RequestUp];
    assert Resting(s, a, ["1"] + ["2"], 0, [RequestUp] + rest, [], FreshClient());
    assert RowIs(s, "1", Pending, "") && RowIs(s, "2", Pending, "");
    s, m := Answered(a, None, s, "1", ["2"], rest, [], FreshClient());
    assert [] + [m] == [m] && rest[1..] == [RequestUp];
    Strays(a, s, Serve(a, 0));
    s := Next(s, Serve(a, 0));
  }

  // One heartbeat that takes the count back is enough for the counter not to be the number of
  // active jobs.
  lemma HeartbeatsForgetJobs(a: AgentId) returns (states: seq<Sys>, acts: seq<Act>)
    requires a != ""
    ensures IsExecution(states, acts) && CalmBut(states, acts, a, Some(Serve(a, 0)))
    ensures var d := states[|acts|].d;
      && PcOf(d, Conn(a)) == Idle && a in d.sv.agents
      && d.sv.agents[a].running == 0 && |Active(d.sv.rows, a)| > 0
  {
    hide Reaches, Leads;
    var s, m := Forgotten(a);
    assert "1" in Active(s.d.sv.rows, a);
    states, acts := Unfolded(a, Some(Serve(a, 0)), s);
    var d := states[|acts|].d;
    assert d == s.d && |Active(d.sv.rows, a)| > 0 && d.sv.agents[a].running == 0;
  }

  // And enough for an agent with one slot to be sent a second job.
  lemma HeartbeatsFindNoRoom(a: AgentId) returns (states: seq<Sys>, acts: seq<Act>)
    requires a != ""
    ensures IsExecution(states, acts) && CalmBut(states, acts, a, Some(Serve(a, 0)))
    ensures |JobsOf(states[|acts|], a)| == 2 && JobsOf(states[|acts|], a)[1].phase.TurnedAway?
  {
    hide Reaches, Leads;
    var beat := Some(Serve(a, 0));
    var s, m := Forgotten(a);
    assert ["2"] == ["2"] + [] && [RequestUp] == [RequestUp] + [];
    var n;
    s, n := Answered(a, beat, s, "2", [], [], [m], FreshClient());
    s := Accepted(a, beat, s, [], 1, [], m, [n], FreshClient());
    var c := Received(FreshClient(), m);
    assert [n] == [n] + [];
    s := Accepted(a, beat, s, [], 1, [], n, [], c);
    states, acts := Unfolded(a, beat, s);
  }

  // ---- Failing calls.

  // Jobs that cannot be read, and messages that cannot be marshalled.
  const BLIND: World := (pc: Pc) => Env(pc.RGet?, 0, "lease")

  const MUTE: World := (pc: Pc) => Env(pc.RMarshal?, 0, "lease")

  // The agent's request is handled while the surroundings answer as `world` does.
  lemma Handled(a: AgentId, s: Sys, world: World) returns (s': Sys)
    requires a != "" && Reaches(a, None, s) && Untouched(s)
    requires Resting(s, a, ["1"] + ["2"], 0, [RequestUp] + [], [], FreshClient())
    requires Finish(s.d.sv, RCheck(a), world).sent.None?
    ensures Reaches(a, None, s') && Untouched(s') && s'.d.sv == Finish(s.d.sv, RCheck(a), world).sv
  {
    hide Finish, Reaches;
    Extends(a, None, s, Serve(a, 0));
    var heard := Next(s, Serve(a, 0));
    RunsOut(a, None, heard, Conn(a), world);
    var f := Finish(heard.d.sv, RCheck(a), world);
    s' := Called(heard, Conn(a), Outcome(f.sv, Idle, f.sent));
  }

  // Read errors lose a job: it is PENDING, and in no queue and no hands.
  lemma UnreadJobsAreLost(a: AgentId) returns (states: seq<Sys>, acts: seq<Act>)
    requires a != ""
    ensures IsExecution(states, acts) && CalmBut(states, acts, a, None)
    ensures IsPending(states[|acts|].d.sv.rows, "1") && !Tracked(states[|acts|].d, "1")
  {
    hide Reaches, Leads, Finish;
    var s := Asking(a);
    CheckOnce(s.d.sv, a, BLIND);
    FinishPicks(s.d.sv, a, 0, BLIND);
    BlindPick(s.d.sv.rows, s.d.sv.queue, a);
    s := Handled(a, s, BLIND);
    states, acts := Unfolded(a, None, s);
  }

  lemma BlindPick(rows: Rows, queue: seq<JobId>, a: AgentId)
    requires |queue| == 2
    ensures Pick(rows, queue, a, 0, BLIND) == (2, false)
  {
    assert Pick(rows, queue[2..], a, 2, BLIND) == (0, false);
    assert queue[1..][1..] == queue[2..];
    assert Pick(rows, queue[1..], a, 1, BLIND) == (1, false);
  }

  // A marshalling error strands a job: it is ASSIGNED to nobody, and nothing was sent.
  lemma MarshalErrorsStrandJobs(a: AgentId) returns (states: seq<Sys>, acts: seq<Act>)
    requires a != ""
    ensures IsExecution(states, acts) && CalmBut(states, acts, a, None)
    ensures Stranded(states[|acts|].d, "1") && states[|acts|].d.sv.rows["1"].owner == ""
  {
    hide Reaches, Leads, Finish, PlanFor;
    var s := Asking(a);
    CheckOnce(s.d.sv, a, MUTE);
    FinishPicks(s.d.sv, a, 0, MUTE);
    var left := s.d.sv.(queue := s.d.sv.queue[1..]);
    StrandsExactly(left, a, "1", MUTE);
    s := Handled(a, s, MUTE);
    states, acts := Unfolded(a, None, s);
  }
}
