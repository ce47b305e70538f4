// What the gateway does in the whole system is a run of the step machine, so
// everything proved of those runs holds in the system too.
module ProtocolRuns {
  import opened Options
  import opened JobModel
  import opened Messages
  import opened Texts
  import opened JobApi
  import opened Dispatch
  import opened DispatchTokens
  import opened DispatchRows
  import opened DispatchCapacity
  import opened Protocol

  // The gateway's part of an action; other actions do not concern it.
  function GatewayPart(s: Sys, act: Act): Option<Action> {
    match act
    case Join(a, hostname, max, now) => Some(Register(a, hostname, max, now))
    case Serve(a, now) => if UpOf(s, a) == [] then None else Some(Heard(a, UpOf(s, a)[0], now))
    case Call(t, env) => Some(Run(t, env))
    case Post(n, job) => Some(Create(n, job))
    case _ => None
  }

  lemma PartIsStep(s: Sys, act: Act)
    requires SysInv(s) && Possible(s, act)
    ensures match GatewayPart(s, act)
      case None => Next(s, act).d == s.d
      case Some(x) => Enabled(s.d, x) && Honest(s.d, x) && Next(s, act).d == Step(s.d, x)
  {
    hide Advance, RowsInv;
    if act.Serve? { ServeKept(s, act.a, act.now); }
  }

  // Action number i of the execution is what the gateway did in state d by x.
  predicate PlaysPart(states: seq<Sys>, acts: seq<Act>, i: nat, d: State, x: Action)
    requires i < |states| && i < |acts|
  {
    states[i].d == d && GatewayPart(states[i], acts[i]) == Some(x)
  }

  ghost predicate Played(states: seq<Sys>, acts: seq<Act>, k: nat, d: State, x: Action)
    requires k <= |states| && k <= |acts|
  {
    exists i | 0 <= i < k :: PlaysPart(states, acts, i, d, x)
  }

  // Executions of the system project to honest runs of the gateway, step by step.
  lemma {:induction false} ExecutionProjects(states: seq<Sys>, acts: seq<Act>, k: nat)
    returns (ds: seq<State>, xs: seq<Action>)
    requires IsExecution(states, acts) && k < |states|
    ensures IsHonestRun(ds, xs) && ds[|ds| - 1] == states[k].d
    ensures forall j | 0 <= j < |xs| :: Played(states, acts, k, ds[j], xs[j])
  {
    hide Next, Possible, Step, Enabled, Honest, SysInv, GatewayPart;
    if k == 0 {
      ds, xs := [states[0].d], [];
    } else {
      var ds', xs' := ExecutionProjects(states, acts, k - 1);
      ds, xs := ds', xs';
      ExecutionsKeepSys(states, acts, k - 1);
      PartIsStep(states[k - 1], acts[k - 1]);
      var part := GatewayPart(states[k - 1], acts[k - 1]);
      if part.Some? {
        ds, xs := ds + [states[k].d], xs + [part.value];
      }
      forall j | 0 <= j < |xs| ensures Played(states, acts, k, ds[j], xs[j]) {
        if j < |xs'| {
          assert Played(states, acts, k - 1, ds'[j], xs'[j]);
        } else {
          assert PlaysPart(states, acts, k - 1, ds[j], xs[j]);
        }
      }
    }
  }

  lemma CreateIsPost(s: Sys, act: Act)
    requires GatewayPart(s, act).Some? && GatewayPart(s, act).value.Create?
    ensures act.Post? && act.job == GatewayPart(s, act).value.job
  {}

  // The deliveries of an agent are messages of the gateway's log.
  lemma DeliveriesWereLogged(s: Sys, a: AgentId, i: nat)
    requires SysInv(s) && i < |JobsOf(s, a)|
    ensures i < |LogOf(s.d, Conn(a))| && LogOf(s.d, Conn(a))[i] == JobsOf(s, a)[i].m
  {
    assert Channel(s, a);
    DeliveredWasSent(s, a, i);
  }

  // In every execution no job is delivered twice, to one agent or to two, and no two
  // deliveries share an upload key.
  lemma DeliveredOnce(states: seq<Sys>, acts: seq<Act>, k: nat, a: AgentId, i: nat, b: AgentId, j: nat)
    requires IsExecution(states, acts) && k < |states| && (a, i) != (b, j)
    requires i < |JobsOf(states[k], a)| && j < |JobsOf(states[k], b)|
    ensures var m, n := JobsOf(states[k], a)[i].m, JobsOf(states[k], b)[j].m;
      m.id != n.id && ('/' !in m.id && '/' !in n.id ==> m.outputKey != n.outputKey)
  {
    hide SysInv, Step, Enabled, Honest, Next, Possible;
    var ds, xs := ExecutionProjects(states, acts, k);
    ExecutionsKeepSys(states, acts, k);
    DeliveriesWereLogged(states[k], a, i);
    DeliveriesWereLogged(states[k], b, j);
    var m, n := JobsOf(states[k], a)[i].m, JobsOf(states[k], b)[j].m;
    LogsApart(ds, xs, Conn(a), i, Conn(b), j);
  }

  lemma LogsApart(ds: seq<State>, xs: seq<Action>, t: Thread, i: nat, u: Thread, j: nat)
    requires IsHonestRun(ds, xs) && (t, i) != (u, j)
    requires i < |LogOf(ds[|ds| - 1], t)| && j < |LogOf(ds[|ds| - 1], u)|
    ensures var m, n := LogOf(ds[|ds| - 1], t)[i], LogOf(ds[|ds| - 1], u)[j];
      m.id != n.id && ('/' !in m.id && '/' !in n.id ==> m.outputKey != n.outputKey)
  {
    var m, n := LogOf(ds[|ds| - 1], t)[i], LogOf(ds[|ds| - 1], u)[j];
    AtMostOneDispatch(ds, xs, |ds| - 1, m.id);
    if '/' !in m.id && '/' !in n.id { OutputsNeverCollide(ds, xs, |ds| - 1, t, i, u, j); }
  }

  // What an agent is given to do is what somebody posted under that id.
  lemma WorkWasPosted(states: seq<Sys>, acts: seq<Act>, k: nat, a: AgentId, i: nat)
    requires IsExecution(states, acts) && k < |states| && i < |JobsOf(states[k], a)|
    ensures var m := JobsOf(states[k], a)[i].m;
      exists j | 0 <= j < k :: acts[j].Post? && acts[j].job.id == m.id && Carries(m, acts[j].job.spec)
  {
    hide SysInv, Carries, Step, Enabled, Honest, Next, Possible;
    var ds, xs := ExecutionProjects(states, acts, k);
    ExecutionsKeepSys(states, acts, k);
    DeliveriesWereLogged(states[k], a, i);
    LoggedWorkWasRequested(ds, xs, Conn(a), i);
    var m := JobsOf(states[k], a)[i].m;
    var j :| 0 <= j < |xs| && xs[j].Create? && xs[j].job.id == m.id && Carries(m, xs[j].job.spec);
    assert Played(states, acts, k, ds[j], xs[j]);
    var n :| 0 <= n < k && PlaysPart(states, acts, n, ds[j], xs[j]);
    CreateIsPost(states[n], acts[n]);
  }

  // From the request to the agent: if what is posted is what requests ask for, then what an
  // agent is given is what the request with that id asks for, field by field.
  lemma RequestedWorkArrives(states: seq<Sys>, acts: seq<Act>, k: nat, a: AgentId, i: nat,
      requests: map<JobId, CreateJobRequest>)
    requires IsExecution(states, acts) && k < |states| && i < |JobsOf(states[k], a)|
    requires forall j | 0 <= j < |acts| && acts[j].Post? ::
               acts[j].job.id in requests && AsAsked(requests[acts[j].job.id], acts[j].job)
    ensures var m := JobsOf(states[k], a)[i].m;
      && m.id in requests && var req := requests[m.id];
      && (m.forwardHttp <==> ToUpper(TrimSpace(req.jobType)) == "FORWARD_HTTP")
      && (m.forward.Some? <==> m.forwardHttp)
      && m.command == (if m.forwardHttp then "" else req.command)
      && (m.forwardHttp ==>
            && IsTrimmed(m.forward.value.url, req.forwardUrl) && IsTrimmed(m.forward.value.verb, req.forwardMethod)
            && m.forward.value.headers == req.forwardHeaders && m.forward.value.body == req.forwardBody
            && m.forward.value.timeout == Int32(req.forwardTimeout))
      && (m.mode.LocalFileMode? <==> ToUpper(TrimSpace(req.inputForwardMode)) == "LOCAL_FILE")
      && (m.mode.UrlMode? <==> ToUpper(TrimSpace(req.inputForwardMode)) == "URL")
      && (req.inputBucket != "" && req.inputKey != "" ==>
            m.inputKey == req.inputKey && m.inputDownload == Presigned(Download(req.inputKey)))
      && (req.inputBucket == "" || req.inputKey == "" ==> m.inputKey == "" && m.inputDownload == NoAccess)
  {
    WorkWasPosted(states, acts, k, a, i);
    var m := JobsOf(states[k], a)[i].m;
    var j :| 0 <= j < k && acts[j].Post? && acts[j].job.id == m.id && Carries(m, acts[j].job.spec);
    AskedIsCarried(requests[m.id], acts[j].job, m);
  }

  lemma AskedIsCarried(req: CreateJobRequest, j: Job, m: JobAssigned)
    requires AsAsked(req, j) && Carries(m, j.spec)
    ensures m.forwardHttp <==> ToUpper(TrimSpace(req.jobType)) == "FORWARD_HTTP"
  {
    hide TrimSpace;
    assert ToUpper("") == "";
  }

  lemma LoggedWorkWasRequested(ds: seq<State>, xs: seq<Action>, t: Thread, i: nat)
    requires IsHonestRun(ds, xs) && i < |LogOf(ds[|ds| - 1], t)|
    ensures var m := LogOf(ds[|ds| - 1], t)[i];
      exists j | 0 <= j < |xs| :: xs[j].Create? && xs[j].job.id == m.id && Carries(m, xs[j].job.spec)
  {
    hide Carries, Step, Enabled, Honest;
    var m := LogOf(ds[|ds| - 1], t)[i];
    SentMessagesAgree(ds, xs, |ds| - 1, t, i);
    RowsWereRequested(ds, xs, |ds| - 1, m.id);
  }

  // The gateway's part of an action upsets the agent's account, or lowers its limit.
  predicate ActUpsets(s: Sys, act: Act, a: AgentId) {
    GatewayPart(s, act).Some? && Upsets(s.d, GatewayPart(s, act).value, a)
  }

  predicate ActLowers(s: Sys, act: Act, a: AgentId) {
    GatewayPart(s, act).Some? && Lowers(s.d, GatewayPart(s, act).value, a)
  }

  // The counter in the whole system: until one of the three things happens that upset it,
  // it is the number of the agent's active jobs, up to the lag of its handler.
  lemma CounterInExecutions(states: seq<Sys>, acts: seq<Act>, k: nat, a: AgentId)
    requires IsExecution(states, acts) && k < |states| && a != ""
    requires forall i | 0 <= i < k :: !ActUpsets(states[i], acts[i], a)
    ensures a in states[k].d.sv.agents ==>
              var info, lag := states[k].d.sv.agents[a], Lag(PcOf(states[k].d, Conn(a)));
              && 0 <= info.running + lag == |Active(states[k].d.sv.rows, a)|
              && ((forall i | 0 <= i < k :: !ActLowers(states[i], acts[i], a)) ==>
                    0 <= info.running <= Ceiling(info) && info.running + lag <= Ceiling(info))
  {
    hide Step, Enabled, Honest, Next, Possible, Upsets, Lowers, Active, GatewayPart;
    var ds, xs := ExecutionProjects(states, acts, k);
    forall j | 0 <= j < |xs| ensures !Upsets(ds[j], xs[j], a) {
      assert Played(states, acts, k, ds[j], xs[j]);
    }
    if forall i | 0 <= i < k :: !ActLowers(states[i], acts[i], a) {
      forall j | 0 <= j < |xs| ensures !Lowers(ds[j], xs[j], a) {
        assert Played(states, acts, k, ds[j], xs[j]);
      }
    }
    CounterIsActiveJobs(ds, xs, a, |ds| - 1);
  }

  // Step by step the condition is exact: in a reachable state in which the account is right,
  // it goes wrong by such an action and by no other.
  lemma ActUpsetsExactly(states: seq<Sys>, acts: seq<Act>, k: nat, a: AgentId)
    requires IsExecution(states, acts) && k < |acts| && a != "" && a in states[k].d.sv.agents
    requires forall i | 0 <= i < k :: !ActUpsets(states[i], acts[i], a)
    ensures var d := states[k + 1].d;
      && a in d.sv.agents
      && (d.sv.agents[a].running + Lag(PcOf(d, Conn(a))) == |Active(d.sv.rows, a)|
          <==> !ActUpsets(states[k], acts[k], a))
  {
    hide Step, Enabled, Honest, Next, Possible, Upsets, Active, GatewayPart, CapacityInv, SysInv;
    var ds, xs := ExecutionProjects(states, acts, k);
    forall j | 0 <= j < |xs| ensures !Upsets(ds[j], xs[j], a) {
      assert Played(states, acts, k, ds[j], xs[j]);
    }
    RunsKeepAccount(ds, xs, a, |ds| - 1);
    ExecutionsKeepSys(states, acts, k);
    PartIsStep(states[k], acts[k]);
    if GatewayPart(states[k], acts[k]).Some? {
      StepUpsetsExactly(states[k].d, GatewayPart(states[k], acts[k]).value, a);
    } else {
      KnownIsTallied(states[k].d, a);
    }
  }

  lemma KnownIsTallied(d: State, a: AgentId)
    requires CapacityInv(d, a) && a in d.sv.agents
    ensures d.sv.agents[a].running + Lag(PcOf(d, Conn(a))) == |Active(d.sv.rows, a)|
  {}
}
