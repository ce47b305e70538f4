// The whole system: the gateway's threads, reliable FIFO channels in both
// directions, and agents that accept, run and report jobs
// (agent/internal/client/client.go against cloud/internal/gateway/gateway.go).
module Protocol {
  import opened JobModel
  import opened Messages
  import opened Dispatch
  import opened DispatchTokens
  import opened DispatchRows

  datatype Up = RequestUp | StatusUp(m: JobStatus) | BeatUp(paused: bool, running: int)

  // What became of a delivered job: turned away, or accepted and taken by its own
  // worker through a RUNNING report, a final report (`last`), and the decrement.
  datatype Phase = TurnedAway | Fresh | Busy | Reporting(last: JobStatus) | Gone(last: JobStatus) {
    predicate Live() {
      Fresh? || Busy? || Reporting?
    }
  }

  datatype Delivery = Delivery(m: JobAssigned, phase: Phase)

  datatype AgentState = AgentState(running: int, max: int, paused: bool, jobs: seq<Delivery>) {
    predicate CanAccept() {
      !paused && running < max
    }
  }

  // How a worker's job comes out.
  datatype Ending =
    | Success(uploaded: bool, stdout: string, stderr: string)
    | Failure(why: string, stdout: string, stderr: string)

  datatype Sys = Sys(
    d: State, up: map<AgentId, seq<Up>>, down: map<AgentId, seq<JobAssigned>>, clients: map<AgentId, AgentState>)

  datatype Act =
    | Join(a: AgentId, hostname: string, max: int, now: int)
    | Serve(a: AgentId, now: int)
    | Call(t: Thread, env: Env)
    | Post(number: nat, job: Job)
    | Deliver(a: AgentId)
    | Progress(a: AgentId, i: nat, ending: Ending)
    | Poll(a: AgentId) // the request loop checks for room and asks, in one step
    | LatePoll(a: AgentId) // it asks some time after its check
    | Beat(a: AgentId)
    | Pause(a: AgentId, paused: bool)

  function UpOf(s: Sys, a: AgentId): seq<Up> {
    if a in s.up then s.up[a] else []
  }

  function DownOf(s: Sys, a: AgentId): seq<JobAssigned> {
    if a in s.down then s.down[a] else []
  }

  function RunningReport(m: JobAssigned): JobStatus {
    JobStatus(m.id, m.attempt, STATUS_RUNNING, "Processing job", "", "", "")
  }

  function FinalReport(m: JobAssigned, e: Ending): JobStatus {
    match e
    case Success(uploaded, stdout, stderr) =>
      JobStatus(m.id, m.attempt, STATUS_SUCCEEDED, "", if uploaded then m.outputKey else "", stdout, stderr)
    case Failure(why, stdout, stderr) =>
      JobStatus(m.id, m.attempt, STATUS_FAILED, why, "", stdout, stderr)
  }

  const TURNED_AWAY := Failure("Agent cannot accept job " + "(paused or at capacity)", "", "")

  function Said(s: Sys, a: AgentId, x: Up): map<AgentId, seq<Up>> {
    s.up[a := UpOf(s, a) + [x]]
  }

  // The message at the head of a connection, as an event of the gateway.
  function Heard(a: AgentId, x: Up, now: int): Action {
    match x
    case RequestUp => Request(a, a, a)
    case StatusUp(m) => Report(a, a, m)
    case BeatUp(paused, running) => Heartbeat(a, a, paused, running, now)
  }

  predicate Possible(s: Sys, act: Act) {
    match act
    case Join(a, _, _, _) => a != "" && a !in s.clients && PcOf(s.d, Conn(a)) == Idle
    case Serve(a, _) => a in s.clients && UpOf(s, a) != [] && PcOf(s.d, Conn(a)) == Idle
    case Call(t, env) => Enabled(s.d, Run(t, env))
    case Post(n, job) => Enabled(s.d, Create(n, job))
    case Deliver(a) => a in s.clients && DownOf(s, a) != []
    case Progress(a, i, _) => a in s.clients && i < |s.clients[a].jobs| && s.clients[a].jobs[i].phase.Live()
    case Poll(a) => a in s.clients
    case LatePoll(a) => a in s.clients
    case Beat(a) => a in s.clients
    case Pause(a, _) => a in s.clients
  }

  // The read loop takes a JobAssigned: it is accepted or turned away.
  function Received(c: AgentState, m: JobAssigned): AgentState {
    if c.CanAccept() then c.(running := c.running + 1, jobs := c.jobs + [Delivery(m, Fresh)])
    else c.(jobs := c.jobs + [Delivery(m, TurnedAway)])
  }

  // One action of the worker of job i.
  function Worked(c: AgentState, i: nat, ending: Ending): AgentState
    requires i < |c.jobs|
  {
    var job := c.jobs[i];
    match job.phase
    case Fresh => c.(jobs := c.jobs[i := job.(phase := Busy)])
    case Busy => c.(jobs := c.jobs[i := job.(phase := Reporting(FinalReport(job.m, ending)))])
    case Reporting(last) =>
      c.(jobs := c.jobs[i := job.(phase := Gone(last))], running := if c.running > 0 then c.running - 1 else c.running)
    case _ => c
  }

  function Next(s: Sys, act: Act): Sys
    requires Possible(s, act)
  {
    match act
    case Join(a, hostname, max, now) =>
      s.(d := Step(s.d, Register(a, hostname, max, now)), clients := s.clients[a := AgentState(0, max, false, [])])
    case Serve(a, now) =>
      s.(d := Step(s.d, Heard(a, s.up[a][0], now)), up := s.up[a := s.up[a][1..]])
    case Call(t, env) =>
      Called(s, t, Advance(s.d.sv, PcOf(s.d, t), env))
    case Post(n, job) =>
      s.(d := Step(s.d, Create(n, job)))
    case Deliver(a) =>
      var m := s.down[a][0];
      var s' := s.(down := s.down[a := s.down[a][1..]], clients := s.clients[a := Received(s.clients[a], m)]);
      if s.clients[a].CanAccept() then s' else s'.(up := Said(s, a, StatusUp(FinalReport(m, TURNED_AWAY))))
    case Progress(a, i, ending) =>
      var job := s.clients[a].jobs[i];
      var s' := s.(clients := s.clients[a := Worked(s.clients[a], i, ending)]);
      if job.phase.Fresh? then s'.(up := Said(s, a, StatusUp(RunningReport(job.m))))
      else if job.phase.Busy? then s'.(up := Said(s, a, StatusUp(FinalReport(job.m, ending))))
      else s'
    case Poll(a) =>
      if s.clients[a].CanAccept() then s.(up := Said(s, a, RequestUp)) else s
    case LatePoll(a) =>
      s.(up := Said(s, a, RequestUp))
    case Beat(a) =>
      s.(up := Said(s, a, BeatUp(s.clients[a].paused, s.clients[a].running)))
    case Pause(a, paused) =>
      s.(clients := s.clients[a := s.clients[a].(paused := paused)])
  }

  // A delivered job is taken in exactly if the agent is not paused and has room; otherwise it
  // says FAILED right away. And it asks for work exactly then.
  lemma AgentsDecide(s: Sys, a: AgentId)
    requires a in s.clients
    ensures var c := s.clients[a]; var room := !c.paused && c.running < c.max;
      && (UpOf(Next(s, Poll(a)), a) == UpOf(s, a) + if room then [RequestUp] else [])
      && (DownOf(s, a) != [] ==>
            var s' := Next(s, Deliver(a)); var m := DownOf(s, a)[0]; var c' := s'.clients[a];
            && DownOf(s', a) == DownOf(s, a)[1..]
            && c' == c.(running := c.running + if room then 1 else 0,
                        jobs := c.jobs + [Delivery(m, if room then Fresh else TurnedAway)])
            && UpOf(s', a) == UpOf(s, a) + if room then [] else [StatusUp(FinalReport(m, TURNED_AWAY))])
  {
    hide Advance, FinalReport;
  }

  // A gateway thread has made a call; what it sends travels down its connection.
  function Called(s: Sys, t: Thread, o: Outcome): Sys {
    var s' := s.(d := After(s.d, t, o));
    if o.sent.Some? && t.Conn? then s'.(down := s.down[t.agent := DownOf(s, t.agent) + [o.sent.value]]) else s'
  }

  function Assignments(jobs: seq<Delivery>): seq<JobAssigned> {
    seq(|jobs|, i requires 0 <= i < |jobs| => jobs[i].m)
  }

  function JobsOf(s: Sys, a: AgentId): seq<Delivery> {
    if a in s.clients then s.clients[a].jobs else []
  }

  // An agent reports only jobs that were sent to it.
  ghost predicate ReportsSent(up: seq<Up>, dispatched: map<JobId, Thread>, a: AgentId) {
    forall k | 0 <= k < |up| && up[k].StatusUp? :: Sent(dispatched, Conn(a), a, up[k].m.id)
  }

  // Channels neither lose, duplicate nor reorder: delivered jobs and messages on
  // the way are together exactly what the gateway sent, in order.
  ghost predicate Channel(s: Sys, a: AgentId) {
    && LogOf(s.d, Conn(a)) == Assignments(JobsOf(s, a)) + DownOf(s, a)
    && (a !in s.clients ==> UpOf(s, a) == []) && (a in s.clients ==> a != "")
    && ReportsSent(UpOf(s, a), s.d.dispatched, a)
  }

  ghost predicate ChannelsInv(s: Sys) {
    forall a :: Channel(s, a)
  }

  ghost predicate SysInv(s: Sys) {
    RowsInv(s.d) && ChannelsInv(s)
  }

  predicate SysStart(s: Sys) {
    Start(s.d) && s.up == map[] && s.down == map[] && s.clients == map[]
  }

  ghost predicate IsExecution(states: seq<Sys>, acts: seq<Act>) {
    && |states| == |acts| + 1 && SysStart(states[0])
    && forall i | 0 <= i < |acts| :: Possible(states[i], acts[i]) && states[i + 1] == Next(states[i], acts[i])
  }

  lemma DeliveredWasSent(s: Sys, a: AgentId, k: nat)
    requires TokenInv(s.d) && Channel(s, a) && k < |JobsOf(s, a)|
    ensures k < |LogOf(s.d, Conn(a))| && LogOf(s.d, Conn(a))[k] == JobsOf(s, a)[k].m
    ensures Sent(s.d.dispatched, Conn(a), a, JobsOf(s, a)[k].m.id)
  {
    assert Conn(a) in s.d.log;
  }

  // A step of the gateway that sends nothing, with the reports still waiting at each agent.
  lemma QuietKeepsChannels(s: Sys, s': Sys)
    requires ChannelsInv(s)
    requires s'.d.log == s.d.log && s'.d.dispatched == s.d.dispatched
    requires s'.down == s.down && s.clients.Keys <= s'.clients.Keys
    requires forall b :: Assignments(JobsOf(s', b)) == Assignments(JobsOf(s, b))
    requires "" in s'.clients ==> "" in s.clients
    requires forall b :: UpOf(s', b) == UpOf(s, b) || (b in s.clients && ReportsSent(UpOf(s', b), s.d.dispatched, b))
    ensures ChannelsInv(s')
  {
    forall b ensures Channel(s', b) {
      assert Channel(s, b);
    }
  }

  lemma SendKeepsChannels(s: Sys, s': Sys, a: AgentId, m: JobAssigned)
    requires ChannelsInv(s) && m.id !in s.d.dispatched
    requires s'.d.log == s.d.log[Conn(a) := LogOf(s.d, Conn(a)) + [m]]
    requires s'.d.dispatched == s.d.dispatched[m.id := Conn(a)]
    requires s'.down == s.down[a := DownOf(s, a) + [m]] && s'.up == s.up && s'.clients == s.clients
    ensures ChannelsInv(s')
  {
    forall b ensures Channel(s', b) {
      assert Channel(s, b);
      if b == a {
        assert LogOf(s'.d, Conn(a)) == Assignments(JobsOf(s, a)) + (DownOf(s, a) + [m]);
      } else {
        assert LogOf(s'.d, Conn(b)) == LogOf(s.d, Conn(b));
      }
    }
  }

  lemma SendsUnsent(d: State, t: Thread, env: Env)
    requires RowsInv(d) && t in d.threads
    ensures var o := Advance(d.sv, d.threads[t], env);
      o.sent.Some? ==>
        && t.Conn? && d.threads[t].RSend? && o.sent.value == Assignment(d.threads[t].w)
        && o.sent.value.id !in d.dispatched
  {
    assert HeldBy(d, t) == Held(d.threads[t]);
    assert PcInv(d.sv.rows, d.dispatched, t, d.threads[t]);
  }

  lemma CallKept(s: Sys, t: Thread, env: Env)
    requires SysInv(s) && Possible(s, Call(t, env))
    ensures ChannelsInv(Next(s, Call(t, env)))
  {
    var o := Advance(s.d.sv, s.d.threads[t], env);
    SendsUnsent(s.d, t, env);
    CalledKept(s, t, o);
  }

  lemma CalledKept(s: Sys, t: Thread, o: Outcome)
    requires ChannelsInv(s) && (o.sent.Some? ==> t.Conn? && o.sent.value.id !in s.d.dispatched)
    ensures ChannelsInv(Called(s, t, o))
  {
    if o.sent.Some? {
      SendKeepsChannels(s, Called(s, t, o), t.agent, o.sent.value);
    } else {
      QuietKeepsChannels(s, Called(s, t, o));
    }
  }

  lemma SayKeepsChannels(s: Sys, a: AgentId, x: Up, clients: map<AgentId, AgentState>)
    requires ChannelsInv(s) && a in s.clients && clients.Keys == s.clients.Keys
    requires forall b | b in clients :: Assignments(clients[b].jobs) == Assignments(s.clients[b].jobs)
    requires x.StatusUp? ==> Sent(s.d.dispatched, Conn(a), a, x.m.id)
    ensures ChannelsInv(s.(up := Said(s, a, x), clients := clients))
    ensures ChannelsInv(s.(clients := clients))
  {
    assert Channel(s, a);
    var s' := s.(up := Said(s, a, x), clients := clients);
    assert ReportsSent(UpOf(s', a), s.d.dispatched, a);
    QuietKeepsChannels(s, s');
    QuietKeepsChannels(s, s.(clients := clients));
  }

  lemma ServeKept(s: Sys, a: AgentId, now: int)
    requires SysInv(s) && Possible(s, Serve(a, now))
    ensures Honest(s.d, Heard(a, UpOf(s, a)[0], now)) && Enabled(s.d, Heard(a, UpOf(s, a)[0], now))
    ensures ChannelsInv(Next(s, Serve(a, now)))
  {
    assert Channel(s, a);
    var s' := Next(s, Serve(a, now));
    forall k | 0 <= k < |UpOf(s', a)| && UpOf(s', a)[k].StatusUp?
      ensures Sent(s.d.dispatched, Conn(a), a, UpOf(s', a)[k].m.id)
    {
      assert UpOf(s', a)[k] == UpOf(s, a)[k + 1];
    }
    QuietKeepsChannels(s, s');
  }

  lemma TakeKeepsChannels(s: Sys, s': Sys, a: AgentId, m: JobAssigned)
    requires ChannelsInv(s) && DownOf(s, a) != [] && m == DownOf(s, a)[0] && a in s'.clients
    requires s'.d == s.d && s'.up == s.up && s'.down == s.down[a := DownOf(s, a)[1..]]
    requires s'.clients.Keys == s.clients.Keys && (forall b | b in s.clients && b != a :: s'.clients[b] == s.clients[b])
    requires Assignments(JobsOf(s', a)) == Assignments(JobsOf(s, a)) + [m]
    ensures ChannelsInv(s')
  {
    forall b ensures Channel(s', b) {
      assert Channel(s, b);
      if b == a { assert [m] + DownOf(s', a) == DownOf(s, a); }
    }
  }

  lemma DeliverKept(s: Sys, a: AgentId)
    requires SysInv(s) && Possible(s, Deliver(a))
    ensures ChannelsInv(Next(s, Deliver(a)))
  {
    var m := s.down[a][0];
    var c := Received(s.clients[a], m);
    var s' := s.(down := s.down[a := s.down[a][1..]], clients := s.clients[a := c]);
    assert Assignments(c.jobs) == Assignments(JobsOf(s, a)) + [m];
    TakeKeepsChannels(s, s', a, m);
    if !s.clients[a].CanAccept() {
      DeliveredWasSent(s', a, |c.jobs| - 1);
      SayKeepsChannels(s', a, StatusUp(FinalReport(m, TURNED_AWAY)), s'.clients);
    }
  }

  lemma ProgressKept(s: Sys, a: AgentId, i: nat, ending: Ending)
    requires SysInv(s) && Possible(s, Progress(a, i, ending))
    ensures ChannelsInv(Next(s, Progress(a, i, ending)))
  {
    var job := s.clients[a].jobs[i];
    var clients := s.clients[a := Worked(s.clients[a], i, ending)];
    assert Channel(s, a);
    DeliveredWasSent(s, a, i);
    assert Assignments(clients[a].jobs) == Assignments(s.clients[a].jobs);
    SayKeepsChannels(s, a, StatusUp(RunningReport(job.m)), clients);
    SayKeepsChannels(s, a, StatusUp(FinalReport(job.m, ending)), clients);
  }

  lemma ChannelsKept(s: Sys, act: Act)
    requires SysInv(s) && Possible(s, act)
    ensures ChannelsInv(Next(s, act))
  {
    match act
    case Join(a, hostname, max, now) =>
      assert Channel(s, a);
      QuietJoin(s, a, hostname, max, now);
    case Serve(a, now) => ServeKept(s, a, now);
    case Call(t, env) => CallKept(s, t, env);
    case Post(n, job) => QuietKeepsChannels(s, Next(s, act));
    case Deliver(a) => DeliverKept(s, a);
    case Progress(a, i, ending) => ProgressKept(s, a, i, ending);
    case Poll(a) => SayKeepsChannels(s, a, RequestUp, s.clients);
    case LatePoll(a) => SayKeepsChannels(s, a, RequestUp, s.clients);
    case Beat(a) => SayKeepsChannels(s, a, BeatUp(s.clients[a].paused, s.clients[a].running), s.clients);
    case Pause(a, paused) => SayKeepsChannels(s, a, RequestUp, s.clients[a := s.clients[a].(paused := paused)]);
  }

  lemma QuietJoin(s: Sys, a: AgentId, hostname: string, max: int, now: int)
    requires ChannelsInv(s) && Possible(s, Join(a, hostname, max, now))
    ensures ChannelsInv(Next(s, Join(a, hostname, max, now)))
  {
    var s' := Next(s, Join(a, hostname, max, now));
    QuietKeepsChannels(s, s');
  }

  // The server's invariants hold in the whole system: real agents report only
  // jobs that they were sent.
  lemma SysKept(s: Sys, act: Act)
    requires SysInv(s) && Possible(s, act)
    ensures SysInv(Next(s, act))
  {
    ChannelsKept(s, act);
    match act
    case Join(a, hostname, max, now) => RowsKept(s.d, Register(a, hostname, max, now));
    case Serve(a, now) =>
      ServeKept(s, a, now);
      RowsKept(s.d, Heard(a, UpOf(s, a)[0], now));
    case Call(t, env) => RowsKept(s.d, Run(t, env));
    case Post(n, job) => RowsKept(s.d, Create(n, job));
    case _ =>
  }

  lemma {:induction false} ExecutionsKeepSys(states: seq<Sys>, acts: seq<Act>, k: nat)
    requires IsExecution(states, acts) && k < |states|
    ensures SysInv(states[k])
  {
    if k > 0 {
      ExecutionsKeepSys(states, acts, k - 1);
      SysKept(states[k - 1], acts[k - 1]);
    }
  }
}
