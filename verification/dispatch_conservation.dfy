// No PENDING job is lost: its id waits in the queue or is in the hands of one
// handler, and the only way out is a failing call that the code does not make good.
module DispatchConservation {
  import opened Options
  import opened JobModel
  import opened Store
  import opened Dispatch
  import opened DispatchTokens
  import opened DispatchRows
  import opened DispatchOwners

  ghost predicate Tracked(s: State, id: JobId) {
    id in s.sv.queue || Holders(s, id) != {}
  }

  predicate IsPending(rows: Rows, id: JobId) {
    id in rows && rows[id].status == Pending
  }

  // The calls whose failure drops the id they are about: reading a dequeued job, putting
  // an id back, and enqueueing a new job.
  predicate Drops(pc: Pc, env: Env, id: JobId) {
    env.fails && match pc
    case RGet(_, _, i) => i == id
    case RRequeue(i) => i == id
    case CEnqueue(i) => i == id
    case _ => false
  }

  // A call by the holder of a PENDING job.
  lemma HolderCalls(sv: Server, dispatched: map<JobId, Thread>, t: Thread, pc: Pc, env: Env, id: JobId)
    requires PcInv(sv.rows, dispatched, t, pc) && Held(pc) == Some(id) && id != ""
    requires IsPending(sv.rows, id)
    ensures var o := Advance(sv, pc, env);
      && (Drops(pc, env, id) ==> Held(o.pc).None? || Held(o.pc) != Some(id))
      && (Drops(pc, env, id) ==> o.sv.queue == sv.queue && IsPending(o.sv.rows, id))
      && (!Drops(pc, env, id) && IsPending(o.sv.rows, id) ==> Held(o.pc) == Some(id) || id in o.sv.queue)
  {
    hide PlanFor, Assignment;
  }

  // A call by anybody else.
  lemma OthersCall(sv: Server, dispatched: map<JobId, Thread>, t: Thread, pc: Pc, env: Env, id: JobId)
    requires PcInv(sv.rows, dispatched, t, pc) && Held(pc) != Some(id) && id in sv.queue
    ensures var o := Advance(sv, pc, env); id in o.sv.queue || Held(o.pc) == Some(id)
    ensures !Drops(pc, env, id)
  {
    hide PlanFor, Assignment, WithStatus, WithOwner, WithOutput, WithMessage, WithStreams, WithAttempt;
    if pc.RDequeue? && sv.queue != [] {
      assert id == sv.queue[0] || id in sv.queue[1..];
    }
  }

  lemma HolderStays(s: State, t: Thread, o: Outcome, u: Thread, id: JobId)
    requires u in Holders(s, id) && u != t
    ensures u in Holders(After(s, t, o), id)
  {}

  lemma HolderMoves(s: State, t: Thread, o: Outcome, id: JobId)
    requires Held(o.pc) == Some(id)
    ensures t in Holders(After(s, t, o), id)
  {}

  lemma OnlyHolder(s: State, t: Thread, o: Outcome, id: JobId)
    requires TokenInv(s) && t in Holders(s, id) && Held(o.pc) != Some(id) && o.sv.queue == s.sv.queue
    ensures !Tracked(After(s, t, o), id)
  {
    assert HeldBy(s, t) == Held(s.threads[t]);
    var s' := After(s, t, o);
    forall u | u in s'.threads ensures HeldBy(s', u) != Some(id) {
      if u != t { assert HeldBy(s', u) == Held(s.threads[u]); }
    }
  }

  // One call loses a PENDING job exactly when it is one of those failures.
  lemma CallLosesExactly(s: State, t: Thread, env: Env, id: JobId)
    requires RowsInv(s) && t in s.threads && s.threads[t] != Idle && IsPending(s.sv.rows, id) && Tracked(s, id)
    ensures var s' := After(s, t, Advance(s.sv, s.threads[t], env));
      IsPending(s'.sv.rows, id) && !Tracked(s', id) <==> Drops(s.threads[t], env, id)
  {
    assert HeldBy(s, t) == Held(s.threads[t]);
    hide Advance, RowsInv, IsPending, Drops, Held;
    if Held(s.threads[t]) == Some(id) {
      HolderLosesExactly(s, t, env, id);
    } else {
      OthersLoseNothing(s, t, env, id);
    }
  }

  lemma HolderLosesExactly(s: State, t: Thread, env: Env, id: JobId)
    requires RowsInv(s) && t in s.threads && IsPending(s.sv.rows, id) && Held(s.threads[t]) == Some(id)
    ensures var s' := After(s, t, Advance(s.sv, s.threads[t], env));
      IsPending(s'.sv.rows, id) && !Tracked(s', id) <==> Drops(s.threads[t], env, id)
  {
    var pc := s.threads[t];
    var o := Advance(s.sv, pc, env);
    assert PcInv(s.sv.rows, s.dispatched, t, pc) && HeldBy(s, t) == Held(pc);
    hide Advance, PcInv, RowsInv, IsPending, Drops, Held;
    KnownId(s, id);
    HolderCalls(s.sv, s.dispatched, t, pc, env, id);
    if Drops(pc, env, id) {
      Tokens(s);
      OnlyHolder(s, t, o, id);
    } else if Held(o.pc) == Some(id) {
      HolderMoves(s, t, o, id);
    }
  }

  lemma OthersLoseNothing(s: State, t: Thread, env: Env, id: JobId)
    requires RowsInv(s) && t in s.threads && Tracked(s, id) && Held(s.threads[t]) != Some(id)
    ensures Tracked(After(s, t, Advance(s.sv, s.threads[t], env)), id) && !Drops(s.threads[t], env, id)
  {
    var pc := s.threads[t];
    var o := Advance(s.sv, pc, env);
    assert PcInv(s.sv.rows, s.dispatched, t, pc) && HeldBy(s, t) == Held(pc);
    assert !Drops(pc, env, id);
    hide Advance, PcInv, RowsInv, Drops, Held;
    if id in s.sv.queue {
      OthersCall(s.sv, s.dispatched, t, pc, env, id);
      if Held(o.pc) == Some(id) { HolderMoves(s, t, o, id); }
    } else {
      var u :| u in Holders(s, id);
      HolderStays(s, t, o, u, id);
    }
  }

  lemma Tokens(s: State)
    requires RowsInv(s)
    ensures TokenInv(s)
  {}

  lemma KnownId(s: State, id: JobId)
    requires RowsInv(s) && IsPending(s.sv.rows, id)
    ensures id != "" && IsPending(s.sv.rows, id)
  {}

  // What an action drops, if anything.
  predicate Loses(s: State, a: Action, id: JobId) {
    a.Run? && Drops(PcOf(s, a.thread), a.env, id)
  }

  lemma StepLosesExactly(s: State, a: Action, id: JobId)
    requires RowsInv(s) && Enabled(s, a) && Honest(s, a) && IsPending(s.sv.rows, id) && Tracked(s, id)
    ensures IsPending(Step(s, a).sv.rows, id) && !Tracked(Step(s, a), id) <==> Loses(s, a, id)
  {
    if a.Run? {
      CallLosesExactly(s, a.thread, a.env, id);
    } else {
      MessageTracks(s, a, id);
    }
  }

  // A message or a request starts an idle thread, and idle threads hold nothing.
  lemma MessageTracks(s: State, a: Action, id: JobId)
    requires Enabled(s, a) && !a.Run? && Tracked(s, id)
    ensures Tracked(Step(s, a), id)
  {
    if id !in s.sv.queue {
      var t :| t in Holders(s, id);
      assert PcOf(Step(s, a), t) == PcOf(s, t);
      assert t in Holders(Step(s, a), id);
    }
  }

  // A row that appears is tracked at once; a row that is PENDING was so before.
  lemma NewRowTracked(s: State, a: Action, id: JobId)
    requires RowsInv(s) && Enabled(s, a) && Honest(s, a)
    requires !IsPending(s.sv.rows, id) && IsPending(Step(s, a).sv.rows, id)
    ensures Tracked(Step(s, a), id)
  {
    hide Advance, RowsInv;
    RowsKept(s, a);
    if id in s.sv.rows {
      assert LegalChange(s.sv.rows[id], Step(s, a).sv.rows[id]);
      TransitionsClimb(s.sv.rows[id].status, Pending);
    } else {
      StepRow(s, a, id);
      CreatedIsHeld(s, a.thread, a.env);
    }
  }

  lemma CreatedIsHeld(s: State, t: Thread, env: Env)
    requires PcOf(s, t).CCreate? && PcOf(s, t).job.id !in s.sv.rows
    requires PcOf(s, t).job.id in Advance(s.sv, PcOf(s, t), env).sv.rows
    ensures Tracked(After(s, t, Advance(s.sv, PcOf(s, t), env)), PcOf(s, t).job.id)
  {
    HolderMoves(s, t, Advance(s.sv, PcOf(s, t), env), PcOf(s, t).job.id);
  }

  // In every state of a run in which none of those calls fails, whatever else does: the id
  // of every PENDING job is in the queue once, or in the hands of one thread, and not both.
  lemma {:induction false} PendingJobsAreTracked(states: seq<State>, actions: seq<Action>, k: nat, id: JobId)
    requires IsHonestRun(states, actions) && k < |states| && IsPending(states[k].sv.rows, id)
    requires forall i | 0 <= i < |actions| :: !Loses(states[i], actions[i], id)
    ensures multiset(states[k].sv.queue)[id] + |Holders(states[k], id)| == 1
  {
    hide Step, Enabled, Honest;
    RunTracks(states, actions, k, id);
    AtMostOneDispatch(states, actions, k, id);
    if Holders(states[k], id) == {} {
      assert id in multiset(states[k].sv.queue);
    }
  }

  lemma {:induction false} RunTracks(states: seq<State>, actions: seq<Action>, k: nat, id: JobId)
    requires IsHonestRun(states, actions) && k < |states| && IsPending(states[k].sv.rows, id)
    requires forall i | 0 <= i < |actions| :: !Loses(states[i], actions[i], id)
    ensures Tracked(states[k], id)
  {
    hide Step, Enabled, Honest, RowsInv, Loses, Tracked, IsPending;
    if k == 0 {
      NothingPending(states[0], id);
    } else {
      RunsKeepRows(states, actions, k - 1);
      if IsPending(states[k - 1].sv.rows, id) {
        RunTracks(states, actions, k - 1, id);
        StepLosesExactly(states[k - 1], actions[k - 1], id);
      } else {
        NewRowTracked(states[k - 1], actions[k - 1], id);
      }
    }
  }

  lemma NothingPending(s: State, id: JobId)
    requires Start(s)
    ensures !IsPending(s.sv.rows, id)
  {}

  // ---- What is lost stays lost.

  lemma StrangersNeverFind(sv: Server, pc: Pc, env: Env, id: JobId)
    requires Touched(pc) != Some(id) && id !in sv.queue && IsPending(sv.rows, id)
    ensures var o := Advance(sv, pc, env); id !in o.sv.queue && Held(o.pc) != Some(id) && IsPending(o.sv.rows, id)
  {
    hide Advance, Held;
    AdvanceFrame(sv, pc, env);
    assert SameRow(sv.rows, Advance(sv, pc, env).sv.rows, id);
    NotTaken(sv, pc, env, id);
  }

  lemma NotTaken(sv: Server, pc: Pc, env: Env, id: JobId)
    requires Touched(pc) != Some(id) && id !in sv.queue
    ensures var o := Advance(sv, pc, env); id !in o.sv.queue && Held(o.pc) != Some(id)
  {
    hide PlanFor, Assignment, WithStatus, WithOwner, WithOutput, WithMessage, WithStreams, WithAttempt;
  }

  lemma ChecksFindNothing(sv: Server, pc: Pc, env: Env, id: JobId)
    requires pc.SGet?
    ensures Advance(sv, pc, env).sv == sv && Held(Advance(sv, pc, env).pc) != Some(id)
  {
    hide PlanFor, Assignment;
  }

  lemma CallKeepsLost(s: State, t: Thread, env: Env, id: JobId)
    requires RowsInv(s) && t in s.threads && IsPending(s.sv.rows, id) && !Tracked(s, id)
    ensures var s' := After(s, t, Advance(s.sv, s.threads[t], env)); IsPending(s'.sv.rows, id) && !Tracked(s', id)
  {
    var pc := s.threads[t];
    assert PcInv(s.sv.rows, s.dispatched, t, pc) && HeldBy(s, t) == Held(pc);
    assert id in s.dispatched ==> SentRow(s.sv.rows, id, s.dispatched[id]);
    assert t !in Holders(s, id);
    hide Advance, RowsInv;
    if pc.SGet? { ChecksFindNothing(s.sv, pc, env, id); } else { StrangersNeverFind(s.sv, pc, env, id); }
    var s' := After(s, t, Advance(s.sv, pc, env));
    forall u | u in s'.threads ensures HeldBy(s', u) != Some(id) {
      if u != t { assert u !in Holders(s, id); }
    }
  }

  lemma StepKeepsLost(s: State, a: Action, id: JobId)
    requires RowsInv(s) && Enabled(s, a) && IsPending(s.sv.rows, id) && !Tracked(s, id)
    ensures IsPending(Step(s, a).sv.rows, id) && !Tracked(Step(s, a), id)
  {
    hide Advance, ThreadsInv, SentInv, LogInv;
    if a.Run? {
      CallKeepsLost(s, a.thread, a.env, id);
    } else {
      var s' := Step(s, a);
      forall u | u in s'.threads ensures HeldBy(s', u) != Some(id) {
        assert u !in Holders(s, id);
      }
    }
  }

  // A PENDING job that is lost is never found again: no later step assigns it, requeues it
  // or changes its status.
  lemma {:induction false} LostForever(states: seq<State>, actions: seq<Action>, i: nat, k: nat, id: JobId)
    requires IsHonestRun(states, actions) && i <= k < |states|
    requires IsPending(states[i].sv.rows, id) && !Tracked(states[i], id)
    ensures IsPending(states[k].sv.rows, id) && !Tracked(states[k], id)
  {
    hide Step, Enabled, Honest, RowsInv, Tracked, IsPending;
    if i < k {
      LostForever(states, actions, i, k - 1, id);
      RunsKeepRows(states, actions, k - 1);
      StepKeepsLost(states[k - 1], actions[k - 1], id);
    }
  }

  // ---- What is stranded stays stranded.

  // ASSIGNED, but to no avail: not sent, and no handler is about to send it or to clear it.
  ghost predicate Stranded(s: State, id: JobId) {
    && id in s.sv.rows && s.sv.rows[id].status == Assigned && id !in s.dispatched
    && forall t | t in s.threads :: !Claims(s.threads[t], id)
  }

  // A call by a thread that does not claim the job.
  lemma BystandersLeave(sv: Server, dispatched: map<JobId, Thread>, t: Thread, pc: Pc, env: Env, id: JobId)
    requires PcInv(sv.rows, dispatched, t, pc) && !Claims(pc, id) && id !in dispatched
    requires id in sv.rows && sv.rows[id].status == Assigned
    ensures var o := Advance(sv, pc, env);
      && id in o.sv.rows && o.sv.rows[id] == sv.rows[id] && !Claims(o.pc, id)
      && (o.sent.Some? ==> o.sent.value.id != id)
  {
    if Touched(pc) == Some(id) {
      BystandersLook(sv, dispatched, t, pc, env, id);
    } else {
      hide Advance, PcInv;
      AdvanceFrame(sv, pc, env);
      assert SameRow(sv.rows, Advance(sv, pc, env).sv.rows, id);
      ClaimsAreTouched(sv, pc, env, id);
    }
  }

  lemma BystandersLook(sv: Server, dispatched: map<JobId, Thread>, t: Thread, pc: Pc, env: Env, id: JobId)
    requires PcInv(sv.rows, dispatched, t, pc) && !Claims(pc, id) && id !in dispatched && Touched(pc) == Some(id)
    requires id in sv.rows && sv.rows[id].status == Assigned
    ensures var o := Advance(sv, pc, env); o.sv.rows == sv.rows && !Claims(o.pc, id) && o.sent.None?
  {
    hide PlanFor, Assignment, WithStatus, WithOwner, WithOutput, WithMessage, WithStreams, WithAttempt;
  }

  lemma ClaimsAreTouched(sv: Server, pc: Pc, env: Env, id: JobId)
    requires Touched(pc) != Some(id)
    ensures var o := Advance(sv, pc, env); !Claims(o.pc, id) && (o.sent.Some? ==> o.sent.value.id != id)
  {
    hide PlanFor, WithStatus, WithOwner, WithOutput, WithMessage, WithStreams, WithAttempt;
  }

  // A call by the thread that claims it.
  lemma ClaimantsGoOn(sv: Server, dispatched: map<JobId, Thread>, t: Thread, pc: Pc, env: Env, id: JobId)
    requires PcInv(sv.rows, dispatched, t, pc) && Claims(pc, id)
    ensures var o := Advance(sv, pc, env);
      && id in o.sv.rows
      && (o.sent.Some? ==> o.sent.value.id == id)
      && (o.sv.rows[id].status == Assigned && !Claims(o.pc, id) && o.sent.None? <==> pc.RClear? && pc.committed)
  {
    hide PlanFor, Counted;
  }

  // A call that touches the job before it is ASSIGNED, or once it has been.
  lemma NobodyElseAssigns(sv: Server, dispatched: map<JobId, Thread>, t: Thread, pc: Pc, env: Env, id: JobId)
    requires PcInv(sv.rows, dispatched, t, pc) && !Claims(pc, id) && id !in dispatched
    requires id in sv.rows && sv.rows[id].status != Assigned
    ensures var o := Advance(sv, pc, env); id in o.sv.rows && o.sv.rows[id].status != Assigned
  {
    if Touched(pc) == Some(id) {
      hide PlanFor, Assignment;
    } else {
      hide Advance, PcInv;
      AdvanceFrame(sv, pc, env);
      assert SameRow(sv.rows, Advance(sv, pc, env).sv.rows, id);
    }
  }

  lemma CallKeepsStranded(s: State, t: Thread, env: Env, id: JobId)
    requires RowsInv(s) && t in s.threads && Stranded(s, id)
    ensures var s' := After(s, t, Advance(s.sv, s.threads[t], env)); Stranded(s', id) && s'.sv.rows[id] == s.sv.rows[id]
  {
    assert PcInv(s.sv.rows, s.dispatched, t, s.threads[t]);
    BystandersLeave(s.sv, s.dispatched, t, s.threads[t], env, id);
    hide Advance, RowsInv, PcInv, Claims;
  }

  lemma StepKeepsStranded(s: State, a: Action, id: JobId)
    requires RowsInv(s) && Enabled(s, a) && Honest(s, a) && Stranded(s, id)
    ensures Stranded(Step(s, a), id) && Step(s, a).sv.rows[id] == s.sv.rows[id]
  {
    if a.Run? {
      CallKeepsStranded(s, a.thread, a.env, id);
    } else {
      MessageKeepsThreads(s, a);
      MessageClaimsNothing(s, a, id);
    }
  }

  lemma MessageClaimsNothing(s: State, a: Action, id: JobId)
    requires Enabled(s, a) && !a.Run?
    ensures forall t | t in Step(s, a).threads && Claims(Step(s, a).threads[t], id) ::
              t in s.threads && Claims(s.threads[t], id)
    ensures forall t | t in s.threads && Claims(s.threads[t], id) ::
              t in Step(s, a).threads && Claims(Step(s, a).threads[t], id)
  {
    hide Advance;
  }

  // One step strands a job exactly when it ends the compensation after a failure behind the
  // commit, whether or not the owner could be cleared.
  lemma StepStrandsExactly(s: State, a: Action, id: JobId)
    requires RowsInv(s) && Enabled(s, a) && Honest(s, a) && id in s.sv.rows && !Stranded(s, id)
    ensures Stranded(Step(s, a), id) <==>
              a.Run? && a.thread in s.threads && s.threads[a.thread].RClear? && s.threads[a.thread].committed
              && s.threads[a.thread].w.id == id
  {
    if a.Run? {
      CallStrandsExactly(s, a.thread, a.env, id);
    } else {
      MessageKeepsThreads(s, a);
      MessageClaimsNothing(s, a, id);
    }
  }

  lemma CallStrandsExactly(s: State, t: Thread, env: Env, id: JobId)
    requires RowsInv(s) && t in s.threads && id in s.sv.rows && !Stranded(s, id)
    ensures Stranded(After(s, t, Advance(s.sv, s.threads[t], env)), id) <==>
              s.threads[t].RClear? && s.threads[t].committed && s.threads[t].w.id == id
  {
    assert PcInv(s.sv.rows, s.dispatched, t, s.threads[t]);
    hide Advance, PcInv, RowsInv, Stranded, Claims;
    if Claims(s.threads[t], id) {
      ClaimantStrandsExactly(s, t, env, id);
    } else {
      NoClaimNoClear(s.threads[t], id);
      BystandersStrandNothing(s, t, env, id);
    }
  }

  lemma NoClaimNoClear(pc: Pc, id: JobId)
    ensures pc.RClear? && pc.w.id == id ==> Claims(pc, id)
  {}

  lemma ClaimantStrandsExactly(s: State, t: Thread, env: Env, id: JobId)
    requires RowsInv(s) && t in s.threads && Claims(s.threads[t], id)
    ensures Stranded(After(s, t, Advance(s.sv, s.threads[t], env)), id) <==>
              s.threads[t].RClear? && s.threads[t].committed && s.threads[t].w.id == id
  {
    assert PcInv(s.sv.rows, s.dispatched, t, s.threads[t]);
    ClaimantsGoOn(s.sv, s.dispatched, t, s.threads[t], env, id);
    OneClaimant(s, t, id);
    NoClaimNoClear(s.threads[t], id);
    hide Advance, PcInv, RowsInv, Claims;
    ClaimGivenUp(s, t, Advance(s.sv, s.threads[t], env), id);
  }

  lemma ClaimGivenUp(s: State, t: Thread, o: Outcome, id: JobId)
    requires t in s.threads && id in o.sv.rows && id !in s.dispatched
    requires forall u | u in s.threads && u != t :: !Claims(s.threads[u], id)
    requires o.sent.Some? ==> o.sent.value.id == id
    ensures Stranded(After(s, t, o), id) <==> o.sv.rows[id].status == Assigned && !Claims(o.pc, id) && o.sent.None?
  {
    hide Claims;
    var s' := After(s, t, o);
    assert s'.threads[t] == o.pc;
    assert forall u | u in s'.threads && u != t :: u in s.threads && s'.threads[u] == s.threads[u];
  }

  lemma BystandersStrandNothing(s: State, t: Thread, env: Env, id: JobId)
    requires RowsInv(s) && t in s.threads && id in s.sv.rows && !Stranded(s, id) && !Claims(s.threads[t], id)
    ensures !Stranded(After(s, t, Advance(s.sv, s.threads[t], env)), id)
  {
    var o := Advance(s.sv, s.threads[t], env);
    assert PcInv(s.sv.rows, s.dispatched, t, s.threads[t]);
    if id !in s.dispatched && s.sv.rows[id].status != Assigned {
      NobodyElseAssigns(s.sv, s.dispatched, t, s.threads[t], env, id);
    }
    hide Advance, PcInv, RowsInv, Claims;
    NotStrandedAfter(s, t, o, id);
    assert !Stranded(After(s, t, o), id);
  }

  lemma NotStrandedAfter(s: State, t: Thread, o: Outcome, id: JobId)
    requires t in s.threads && id in s.sv.rows && !Stranded(s, id) && !Claims(s.threads[t], id)
    requires id !in s.dispatched && s.sv.rows[id].status != Assigned ==>
               id in o.sv.rows && o.sv.rows[id].status != Assigned
    ensures !Stranded(After(s, t, o), id)
  {
    hide Claims;
    if id !in s.dispatched && s.sv.rows[id].status == Assigned {
      var u :| u in s.threads && Claims(s.threads[u], id);
      assert After(s, t, o).threads[u] == s.threads[u];
    }
  }

  lemma OneClaimant(s: State, t: Thread, id: JobId)
    requires RowsInv(s) && t in s.threads && Claims(s.threads[t], id)
    ensures id !in s.dispatched && forall u | u in s.threads && u != t :: !Claims(s.threads[u], id)
  {
    ClaimsAreHeld(s.threads[t], id);
    assert HeldBy(s, t) == Some(id);
    forall u | u in s.threads && u != t ensures !Claims(s.threads[u], id) { ClaimsAreHeld(s.threads[u], id); }
  }

  // A job left ASSIGNED and unsent stays so, with its whole row, in every later state.
  lemma {:induction false} StrandedForever(states: seq<State>, actions: seq<Action>, i: nat, k: nat, id: JobId)
    requires IsHonestRun(states, actions) && i <= k < |states| && Stranded(states[i], id)
    ensures Stranded(states[k], id) && states[k].sv.rows[id] == states[i].sv.rows[id]
  {
    hide Step, Enabled, Honest, RowsInv, Stranded;
    KnownRow(states[i], id);
    if i < k {
      StrandedForever(states, actions, i, k - 1, id);
      RunsKeepRows(states, actions, k - 1);
      StepKeepsStranded(states[k - 1], actions[k - 1], id);
      KnownRow(states[k], id);
      KnownRow(states[k - 1], id);
    }
  }

  lemma KnownRow(s: State, id: JobId)
    requires Stranded(s, id)
    ensures id in s.sv.rows
  {}
}
