// An agent with one slot: whenever a job arrives, the slot is free. Any number
// of requests may be under way, and the final report travels ahead of the
// agent's own decrement.
module ProtocolRoom {
  import opened Options
  import opened JobModel
  import opened Messages
  import opened Registry
  import opened Dispatch
  import opened DispatchRows
  import opened DispatchCapacity
  import opened Protocol
  import opened ProtocolFlow

  predicate EndUp(x: Up) {
    x.StatusUp? && IsEnd(x.m)
  }

  // The final reports in a channel.
  function Finals(up: seq<Up>): nat {
    if up == [] then 0 else (if EndUp(up[0]) then 1 else 0) + Finals(up[1..])
  }

  // Every request in the channel has a final report behind it.
  predicate Covered(up: seq<Up>) {
    up == [] || ((up[0].RequestUp? ==> Finals(up[1..]) > 0) && Covered(up[1..]))
  }

  // No reports but those of workers, and heartbeats of an agent at work on one job at most.
  predicate Plain(x: Up) {
    match x
    case RequestUp => true
    case StatusUp(m) => IsStart(m) || IsEnd(m)
    case BeatUp(paused, running) => !paused && running <= 1
  }

  ghost predicate AllPlain(up: seq<Up>) {
    forall k | 0 <= k < |up| :: Plain(up[k])
  }

  // A final report in the handler's hand, until the counter has been told.
  function FinalInHand(pc: Pc): nat {
    match pc
    case SGet(_, m) => if IsEnd(m) then 1 else 0
    case SMessage(_, m, _) => if IsEnd(m) then 1 else 0
    case SStreams(_, m, _) => if IsEnd(m) then 1 else 0
    case SRead(_, m, _, _) => if IsEnd(m) then 1 else 0
    case SWrite(_, m, _, _) => if IsEnd(m) then 1 else 0
    case SCount(_) => 1
    case _ => 0
  }

  predicate PlainHand(pc: Pc) {
    match pc
    case SGet(_, m) => IsStart(m) || IsEnd(m)
    case SMessage(_, m, _) => IsStart(m) || IsEnd(m)
    case SStreams(_, m, _) => IsStart(m) || IsEnd(m)
    case SRead(_, m, _, _) => IsStart(m) || IsEnd(m)
    case SWrite(_, m, _, _) => IsStart(m) || IsEnd(m)
    case _ => true
  }

  predicate AtWork(c: AgentState) {
    c.jobs != [] && (c.jobs[|c.jobs| - 1].phase.Fresh? || c.jobs[|c.jobs| - 1].phase.Busy?)
  }

  predicate Closing(c: AgentState) {
    c.jobs != [] && c.jobs[|c.jobs| - 1].phase.Reporting?
  }

  // Jobs given to the agent whose end the server has not yet counted.
  function Outstanding(pc: Pc, up: seq<Up>, down: seq<JobAssigned>, c: AgentState): nat {
    |down| + (if pc.RSend? then 1 else 0) + (if AtWork(c) then 1 else 0) + Finals(up) + FinalInHand(pc)
  }

  ghost predicate OneSlot(c: AgentState) {
    && c.max == 1 && !c.paused
    && (forall k | 0 <= k < |c.jobs| - 1 :: c.jobs[k].phase.Gone?)
    && (c.jobs != [] ==> !c.jobs[|c.jobs| - 1].phase.TurnedAway?)
    && c.running == if AtWork(c) || Closing(c) then 1 else 0
  }

  ghost predicate Room(info: Info, pc: Pc, up: seq<Up>, down: seq<JobAssigned>, c: AgentState) {
    && info.max == 1 && !info.paused && 0 <= info.running <= 1
    && OneSlot(c)
    && Outstanding(pc, up, down, c) <= info.running
    && (Admitted(pc) ==> info.running == 0)
    && (down != [] || Admitted(pc) || pc.RSend? ==> c.running == 0)
    && (Closing(c) ==> Covered(up) && (Finals(up) == 0 ==> !pc.RCheck?))
    && AllPlain(up) && PlainHand(pc) && HandOk(pc)
  }

  ghost predicate RoomOf(s: Sys, a: AgentId) {
    if a in s.clients
    then a in s.d.sv.agents && Room(s.d.sv.agents[a], PcOf(s.d, Conn(a)), UpOf(s, a), DownOf(s, a), s.clients[a])
    else a !in s.d.sv.agents && PcOf(s.d, Conn(a)) == Idle && UpOf(s, a) == [] && DownOf(s, a) == []
  }

  // The agent has one slot and is never paused; it does not ask for a job while its worker
  // has reported the end of one and not yet freed the slot; and no heartbeat of its takes
  // the gateway's count back.
  predicate Calm(s: Sys, act: Act, a: AgentId) {
    match act
    case Join(b, _, max, _) => b == a ==> max == 1
    case Serve(b, _) => b == a ==> !TakesBack(s, a)
    case Pause(b, paused) => b == a ==> !paused
    case LatePoll(b) => b == a ==> !Hasty(s, a)
    case _ => true
  }

  predicate Hasty(s: Sys, a: AgentId) {
    a in s.clients && Closing(s.clients[a])
  }

  predicate TakesBack(s: Sys, a: AgentId) {
    && UpOf(s, a) != [] && UpOf(s, a)[0].BeatUp?
    && a in s.d.sv.agents && UpOf(s, a)[0].running < s.d.sv.agents[a].running
  }

  lemma {:induction false} FinalsAppend(up: seq<Up>, x: Up)
    ensures Finals(up + [x]) == Finals(up) + if EndUp(x) then 1 else 0
  {
    if up == [] {
      assert up + [x] == [x];
    } else {
      assert (up + [x])[1..] == up[1..] + [x];
      FinalsAppend(up[1..], x);
    }
  }

  lemma {:induction false} OthersCover(up: seq<Up>, x: Up)
    requires Covered(up) && !x.RequestUp?
    ensures Covered(up + [x])
  {
    if up == [] {
      assert up + [x] == [x];
    } else {
      assert (up + [x])[1..] == up[1..] + [x];
      FinalsAppend(up[1..], x);
      OthersCover(up[1..], x);
    }
  }

  lemma {:induction false} FinalCovers(up: seq<Up>, x: Up)
    requires EndUp(x)
    ensures Covered(up + [x])
  {
    if up == [] {
      assert up + [x] == [x];
    } else {
      assert (up + [x])[1..] == up[1..] + [x];
      FinalsAppend(up[1..], x);
      FinalCovers(up[1..], x);
    }
  }

  function Burden(pc: Pc): nat {
    (if pc.RSend? then 1 else 0) + FinalInHand(pc)
  }

  // What one call of the agent's own handler does to its counter and its position.
  predicate RoomStep(info: Info, pc: Pc, info': Info, pc': Pc, sent: bool) {
    && info'.max == info.max && info'.paused == info.paused
    && Burden(pc') + (if sent then 1 else 0) - Burden(pc) <= info'.running - info.running
    && (info'.running == info.running || (pc.RCount? && info'.running == info.running + 1)
        || (pc.SCount? && info'.running == info.running - 1 >= 0))
    && (Admitted(pc') ==> info'.running == info.running && (Admitted(pc) || (pc.RCheck? && info.running < info.max)))
    && (pc'.RSend? ==> Admitted(pc))
    && (sent ==> pc.RSend?)
    && !pc'.RCheck?
    && PlainHand(pc') && HandOk(pc')
  }

  lemma StepsBeforeCommit(sv: Server, dispatched: map<JobId, Thread>, a: AgentId, env: Env, pc: Pc)
    requires a in sv.agents && PcInv(sv.rows, dispatched, Conn(a), pc) && !IsReport(pc)
    ensures var o := Advance(sv, pc, env);
      a in o.sv.agents && RoomStep(sv.agents[a], pc, o.sv.agents[a], o.pc, o.sent.Some?)
  {
    hide PcInv, Advance, RoomStep;
    if IsEarly(pc) { EarlyRoom(sv, dispatched, a, env, pc); }
    else if IsLate(pc) { LateRoom(sv, dispatched, a, env, pc); }
    else { OtherRoom(sv, dispatched, a, env, pc); }
  }

  lemma EarlyRoom(sv: Server, dispatched: map<JobId, Thread>, a: AgentId, env: Env, pc: Pc)
    requires a in sv.agents && PcInv(sv.rows, dispatched, Conn(a), pc) && IsEarly(pc)
    ensures var o := Advance(sv, pc, env);
      a in o.sv.agents && RoomStep(sv.agents[a], pc, o.sv.agents[a], o.pc, o.sent.Some?)
  {
    hide PlanFor, Assignment;
  }

  lemma LateRoom(sv: Server, dispatched: map<JobId, Thread>, a: AgentId, env: Env, pc: Pc)
    requires a in sv.agents && PcInv(sv.rows, dispatched, Conn(a), pc) && IsLate(pc)
    ensures var o := Advance(sv, pc, env);
      a in o.sv.agents && RoomStep(sv.agents[a], pc, o.sv.agents[a], o.pc, o.sent.Some?)
  {
    hide PlanFor, Assignment;
  }

  lemma OtherRoom(sv: Server, dispatched: map<JobId, Thread>, a: AgentId, env: Env, pc: Pc)
    requires a in sv.agents && PcInv(sv.rows, dispatched, Conn(a), pc) && !IsEarly(pc) && !IsLate(pc) && !IsReport(pc)
    ensures var o := Advance(sv, pc, env);
      a in o.sv.agents && RoomStep(sv.agents[a], pc, o.sv.agents[a], o.pc, o.sent.Some?)
  {
    hide PlanFor, Assignment;
  }

  lemma StepsOfReport(sv: Server, dispatched: map<JobId, Thread>, a: AgentId, env: Env, pc: Pc)
    requires a in sv.agents && IsReport(pc) && PlainHand(pc) && HandOk(pc)
    ensures var o := Advance(sv, pc, env);
      a in o.sv.agents && RoomStep(sv.agents[a], pc, o.sv.agents[a], o.pc, o.sent.Some?)
  {
    hide PlanFor, Assignment;
  }

  lemma OwnRoom(info: Info, pc: Pc, info': Info, pc': Pc, sent: Option<JobAssigned>, up: seq<Up>,
      down: seq<JobAssigned>, c: AgentState)
    requires Room(info, pc, up, down, c) && RoomStep(info, pc, info', pc', sent.Some?)
    ensures Room(info', pc', up, if sent.Some? then down + [sent.value] else down, c)
  {
    if pc.RCheck? && info.running == 0 {
      assert Finals(up) == 0 && !AtWork(c) && !Closing(c) && down == [];
    }
  }

  lemma CallRoom(s: Sys, t: Thread, env: Env, a: AgentId)
    requires SysInv(s) && RoomOf(s, a) && Possible(s, Call(t, env))
    ensures RoomOf(Next(s, Call(t, env)), a)
  {
    hide Advance;
    var pc := s.d.threads[t];
    var o := Advance(s.d.sv, pc, env);
    assert PcInv(s.d.sv.rows, s.d.dispatched, t, pc);
    SendsUnsent(s.d, t, env);
    CalledParts(s, t, o, a);
    if t == Conn(a) {
      if IsReport(pc) { StepsOfReport(s.d.sv, s.d.dispatched, a, env, pc); }
      else { StepsBeforeCommit(s.d.sv, s.d.dispatched, a, env, pc); }
      OwnRoom(s.d.sv.agents[a], pc, o.sv.agents[a], o.pc, o.sent, UpOf(s, a), DownOf(s, a), s.clients[a]);
    } else {
      ForeignAgents(s.d.sv, s.d.dispatched, t, pc, env, a);
    }
    CalledRoom(s, t, o, a);
  }

  lemma CalledRoom(s: Sys, t: Thread, o: Outcome, a: AgentId)
    requires o.sent.Some? ==> t.Conn?
    requires RoomOf(s, a) && (a in s.clients <==> a in o.sv.agents)
    requires a in s.clients ==>
               Room(o.sv.agents[a], if t == Conn(a) then o.pc else PcOf(s.d, Conn(a)), UpOf(s, a),
                    if t == Conn(a) && o.sent.Some? then DownOf(s, a) + [o.sent.value] else DownOf(s, a), s.clients[a])
    requires a !in s.clients ==> t != Conn(a)
    ensures RoomOf(Called(s, t, o), a)
  {
    CalledParts(s, t, o, a);
  }

  // The gateway takes up the agent's next message; a heartbeat is handled at once.
  lemma TakeUpRoom(info: Info, up: seq<Up>, down: seq<JobAssigned>, c: AgentState, info': Info, pc: Pc)
    requires Room(info, Idle, up, down, c) && up != []
    requires match up[0]
      case RequestUp => pc.RCheck? && info' == info
      case StatusUp(m) => pc.SGet? && pc.m == m && info' == info
      case BeatUp(paused, running) =>
        && pc == Idle && info.running <= running
        && info'.running == running && info'.paused == paused && info'.max == info.max
    ensures Room(info', pc, up[1..], down, c)
  {
    assert Plain(up[0]);
    assert AllPlain(up[1..]) by {
      forall k | 0 <= k < |up[1..]| ensures Plain(up[1..][k]) { assert Plain(up[k + 1]); }
    }
  }

  lemma ServedRecord(s: Sys, a: AgentId, now: int)
    requires Possible(s, Serve(a, now)) && a != "" && a in s.d.sv.agents
    ensures var agents := Next(s, Serve(a, now)).d.sv.agents;
      && a in agents
      && if UpOf(s, a)[0].BeatUp?
         then agents[a] == s.d.sv.agents[a].(
                lastHeartbeat := now, paused := UpOf(s, a)[0].paused, running := UpOf(s, a)[0].running)
         else agents[a] == s.d.sv.agents[a]
  {
    hide Advance;
  }

  lemma ServeRoom(s: Sys, a: AgentId, now: int)
    requires SysInv(s) && RoomOf(s, a) && Possible(s, Serve(a, now)) && !TakesBack(s, a)
    ensures RoomOf(Next(s, Serve(a, now)), a)
  {
    HeadWasSent(s, a);
    ServedParts(s, a, now);
    ServedRecord(s, a, now);
    var s' := Next(s, Serve(a, now));
    TakeUpRoom(s.d.sv.agents[a], UpOf(s, a), DownOf(s, a), s.clients[a], s'.d.sv.agents[a], PcOf(s'.d, Conn(a)));
    hide Room, Next, SysInv;
    assert s'.clients == s.clients by { ServedClients(s, a, now); }
  }

  lemma ServedClients(s: Sys, a: AgentId, now: int)
    requires Possible(s, Serve(a, now))
    ensures Next(s, Serve(a, now)).clients == s.clients
  {
    hide Advance;
  }

  // A job arrives: the slot is free.
  lemma DeliverRoom(info: Info, pc: Pc, up: seq<Up>, down: seq<JobAssigned>, c: AgentState)
    requires Room(info, pc, up, down, c) && down != []
    ensures c.CanAccept() && Room(info, pc, up, down[1..], Received(c, down[0]))
  {
    var c' := Received(c, down[0]);
    forall k | 0 <= k < |c'.jobs| - 1 ensures c'.jobs[k].phase.Gone? {
      if k == |c.jobs| - 1 { assert !AtWork(c) && !Closing(c); }
    }
  }

  // The worker reports or leaves.
  lemma WorkRoom(info: Info, pc: Pc, up: seq<Up>, down: seq<JobAssigned>, c: AgentState, i: nat, ending: Ending)
    requires Room(info, pc, up, down, c) && i < |c.jobs| && c.jobs[i].phase.Live()
    ensures var c' := Worked(c, i, ending); var m := c.jobs[i].m;
      if c.jobs[i].phase.Fresh? then Room(info, pc, up + [StatusUp(RunningReport(m))], down, c')
      else if c.jobs[i].phase.Busy? then Room(info, pc, up + [StatusUp(FinalReport(m, ending))], down, c')
      else Room(info, pc, up, down, c')
  {
    hide HandOk, PlainHand;
    assert i == |c.jobs| - 1;
    var m := c.jobs[i].m;
    FinalsAppend(up, StatusUp(RunningReport(m)));
    FinalsAppend(up, StatusUp(FinalReport(m, ending)));
    FinalCovers(up, StatusUp(FinalReport(m, ending)));
    assert !EndUp(StatusUp(RunningReport(m))) && EndUp(StatusUp(FinalReport(m, ending)));
  }

  // The agent asks for a job or sends a heartbeat.
  lemma AskRoom(info: Info, pc: Pc, up: seq<Up>, down: seq<JobAssigned>, c: AgentState, x: Up)
    requires Room(info, pc, up, down, c)
    requires (x.RequestUp? && (c.CanAccept() || !Closing(c))) || x == BeatUp(c.paused, c.running)
    ensures Room(info, pc, up + [x], down, c)
  {
    FinalsAppend(up, x);
    if Closing(c) { OthersCover(up, x); }
  }

  // Taking back a pause that is not in force changes nothing.
  lemma PauseRoom(s: Sys, a: AgentId)
    requires RoomOf(s, a) && Possible(s, Pause(a, false))
    ensures RoomOf(Next(s, Pause(a, false)), a)
  {
    assert s.clients[a].(paused := false) == s.clients[a];
  }

  lemma JoinRoom(s: Sys, a: AgentId, hostname: string, now: int)
    requires RoomOf(s, a) && Possible(s, Join(a, hostname, 1, now))
    ensures RoomOf(Next(s, Join(a, hostname, 1, now)), a)
  {}

  lemma AloofAgents(s: Sys, act: Act, a: AgentId)
    requires Possible(s, act) && !act.Call? && !(act.Join? && act.a == a)
    requires Aloof(act, a) && !(act.Pause? && act.a == a)
    ensures var s' := Next(s, act);
      && (a in s'.d.sv.agents <==> a in s.d.sv.agents) && (a in s.d.sv.agents ==> s'.d.sv.agents[a] == s.d.sv.agents[a])
      && (a in s'.clients <==> a in s.clients) && (a in s.clients ==> s'.clients[a] == s.clients[a])
  {
    hide Advance, RunningReport, FinalReport;
    if act.Serve? {
      var d' := Step(s.d, Heard(act.a, s.up[act.a][0], act.now));
      assert (a in d'.sv.agents <==> a in s.d.sv.agents)
        && (a in s.d.sv.agents ==> d'.sv.agents[a] == s.d.sv.agents[a]);
    }
  }

  lemma RoomKept(s: Sys, act: Act, a: AgentId)
    requires SysInv(s) && RoomOf(s, a) && Possible(s, act) && Calm(s, act, a)
    ensures RoomOf(Next(s, act), a)
  {
    hide Room, Advance, Step, Closing, TakesBack;
    assert Channel(s, a);
    if act.Call? { CallRoom(s, act.t, act.env, a); }
    else if act.Serve? && act.a == a { ServeRoom(s, a, act.now); }
    else if act.Deliver? && act.a == a {
      DeliverRoom(s.d.sv.agents[a], PcOf(s.d, Conn(a)), UpOf(s, a), DownOf(s, a), s.clients[a]);
    }
    else if act.Progress? && act.a == a {
      WorkRoom(s.d.sv.agents[a], PcOf(s.d, Conn(a)), UpOf(s, a), DownOf(s, a), s.clients[a], act.i, act.ending);
    }
    else if (act.Poll? || act.LatePoll?) && act.a == a {
      if act.LatePoll? || s.clients[a].CanAccept() {
        AskRoom(s.d.sv.agents[a], PcOf(s.d, Conn(a)), UpOf(s, a), DownOf(s, a), s.clients[a], RequestUp);
      }
    }
    else if act.Beat? && act.a == a {
      var c := s.clients[a];
      AskRoom(s.d.sv.agents[a], PcOf(s.d, Conn(a)), UpOf(s, a), DownOf(s, a), c, BeatUp(c.paused, c.running));
    }
    else if act.Pause? && act.a == a { PauseRoom(s, a); }
    else if act.Join? && act.a == a { JoinRoom(s, a, act.hostname, act.now); }
    else {
      AloofAgents(s, act, a);
      if act.Serve? { ServeParts(s, act.a, act.now, a); } else { AloofParts(s, act, a); }
    }
  }

  lemma {:induction false} ExecutionsKeepRoom(states: seq<Sys>, acts: seq<Act>, k: nat, a: AgentId)
    requires IsExecution(states, acts) && k < |states|
    requires forall i | 0 <= i < |acts| :: Calm(states[i], acts[i], a)
    ensures SysInv(states[k]) && RoomOf(states[k], a)
  {
    ExecutionsKeepSys(states, acts, k);
    if k > 0 {
      ExecutionsKeepRoom(states, acts, k - 1, a);
      RoomKept(states[k - 1], acts[k - 1], a);
    }
  }

  // In every execution that is calm for an agent, whatever fails and whatever others do: a
  // job waiting to be delivered finds room, and none was ever turned away.
  lemma JobsFindRoom(states: seq<Sys>, acts: seq<Act>, k: nat, a: AgentId)
    requires IsExecution(states, acts) && k < |states| && a in states[k].clients
    requires forall i | 0 <= i < |acts| :: Calm(states[i], acts[i], a)
    ensures DownOf(states[k], a) != [] ==> states[k].clients[a].CanAccept()
    ensures forall i | 0 <= i < |JobsOf(states[k], a)| :: !JobsOf(states[k], a)[i].phase.TurnedAway?
  {
    ExecutionsKeepRoom(states, acts, k, a);
    var s := states[k];
    if DownOf(s, a) != [] {
      DeliverRoom(s.d.sv.agents[a], PcOf(s.d, Conn(a)), UpOf(s, a), DownOf(s, a), s.clients[a]);
    }
  }
}
