// The threads of one agent: the read loop that admits jobs, a worker per job, and the
// loop that asks for work. Each access to a shared variable is a step of its own
// (agent/internal/client/client.go).
module AgentThreads {
  const MIN_BACKOFF := 500
  const MAX_BACKOFF := 30_000

  // The read loop between the capacity check, the increment and the start of the worker,
  // which take the lock separately.
  datatype Reader = Reading | Received | Admitted | Counted

  // A worker: running its job; after the decrement; after the signal to the request loop.
  datatype Worker = Working | Decremented | Ended

  datatype Loop = Selecting | Woken | Polled | SendingNow | SendingPolled | Stopped

  datatype Agent = Agent(
    running: int, max: int, paused: bool, reader: Reader, workers: seq<Worker>,
    signal: bool, loop: Loop, backoff: int)
  {
    predicate CanAccept() {
      !paused && running < max
    }
  }

  datatype Act =
    | Receive | CheckJob | Increment | Spawn
    | Decrement(i: nat) | Signal(i: nat)
    | TakeSignal | Timer | CheckRoom | Send(ok: bool) | Stop
    | Pause(paused: bool)

  predicate Possible(a: Agent, act: Act) {
    match act
    case Receive => a.reader.Reading?
    case CheckJob => a.reader.Received?
    case Increment => a.reader.Admitted?
    case Spawn => a.reader.Counted?
    case Decrement(i) => i < |a.workers| && a.workers[i].Working?
    case Signal(i) => i < |a.workers| && a.workers[i].Decremented?
    case TakeSignal => a.loop.Selecting? && a.signal
    case Timer => a.loop.Selecting?
    case CheckRoom => a.loop.Woken? || a.loop.Polled?
    case Send(_) => a.loop.SendingNow? || a.loop.SendingPolled?
    case Stop => a.loop.Selecting?
    case Pause(_) => true
  }

  function Doubled(backoff: int): int {
    if backoff * 2 < MAX_BACKOFF then backoff * 2 else MAX_BACKOFF
  }

  function Next(a: Agent, act: Act): Agent
    requires Possible(a, act)
  {
    match act
    case Receive => a.(reader := Received)
    case CheckJob => a.(reader := if a.CanAccept() then Admitted else Reading)
    case Increment => a.(reader := Counted, running := a.running + 1)
    case Spawn => a.(reader := Reading, workers := a.workers + [Working])
    case Decrement(i) =>
      a.(workers := a.workers[i := Decremented], running := if a.running > 0 then a.running - 1 else a.running)
    case Signal(i) => a.(workers := a.workers[i := Ended], signal := true)
    case TakeSignal => a.(loop := Woken, signal := false)
    case Timer => a.(loop := Polled)
    case CheckRoom =>
      if a.loop.Woken? then a.(loop := if a.CanAccept() then SendingNow else Selecting)
      else if a.CanAccept() then a.(loop := SendingPolled, backoff := MIN_BACKOFF)
      else a.(loop := Selecting, backoff := Doubled(a.backoff))
    case Send(ok) =>
      if a.loop.SendingNow? then a.(loop := Selecting, backoff := MIN_BACKOFF)
      else a.(loop := Selecting, backoff := if ok then a.backoff else Doubled(a.backoff))
    case Stop => a.(loop := Stopped)
    case Pause(paused) => a.(paused := paused)
  }

  predicate Start(a: Agent) {
    a.running == 0 && a.reader.Reading? && a.workers == [] && !a.signal && a.loop.Selecting? && a.backoff == MIN_BACKOFF
  }

  ghost predicate IsSchedule(states: seq<Agent>, acts: seq<Act>) {
    && |states| == |acts| + 1 && Start(states[0])
    && forall i | 0 <= i < |acts| :: Possible(states[i], acts[i]) && states[i + 1] == Next(states[i], acts[i])
  }

  // ---- The counter.

  // Workers whose job is still running.
  function Live(workers: seq<Worker>): nat {
    if workers == [] then 0 else Live(workers[1..]) + if workers[0].Working? then 1 else 0
  }

  lemma {:induction false} LiveUpdated(workers: seq<Worker>, i: nat, w: Worker)
    requires i < |workers| && workers[i].Working? && !w.Working?
    ensures Live(workers[i := w]) == Live(workers) - 1
  {
    if i > 0 {
      LiveUpdated(workers[1..], i - 1, w);
      assert workers[i := w][1..] == workers[1..][i - 1 := w];
    } else {
      assert workers[0 := w][1..] == workers[1..];
    }
  }

  lemma {:induction false} LiveKept(workers: seq<Worker>, i: nat, w: Worker)
    requires i < |workers| && !workers[i].Working? && !w.Working?
    ensures Live(workers[i := w]) == Live(workers)
  {
    if i > 0 {
      LiveKept(workers[1..], i - 1, w);
      assert workers[i := w][1..] == workers[1..][i - 1 := w];
    } else {
      assert workers[0 := w][1..] == workers[1..];
    }
  }

  lemma {:induction false} LiveAdded(workers: seq<Worker>)
    ensures Live(workers + [Working]) == Live(workers) + 1
  {
    if workers != [] {
      assert (workers + [Working])[1..] == workers[1..] + [Working];
      LiveAdded(workers[1..]);
    } else {
      assert (workers + [Working])[1..] == [];
    }
  }

  predicate Counts(a: Agent) {
    && a.running == Live(a.workers) + (if a.reader.Counted? then 1 else 0)
    && (a.reader.Admitted? ==> a.running < a.max)
    && (a.running > 0 ==> a.running <= a.max)
  }

  lemma CountsKept(a: Agent, act: Act)
    requires Counts(a) && Possible(a, act)
    ensures Counts(Next(a, act)) && Next(a, act).max == a.max
  {
    match act
    case Spawn => LiveAdded(a.workers);
    case Decrement(i) => LiveUpdated(a.workers, i, Decremented);
    case Signal(i) => LiveKept(a.workers, i, Ended);
    case _ =>
  }

  lemma {:induction false} RunsCount(states: seq<Agent>, acts: seq<Act>, k: nat)
    requires IsSchedule(states, acts) && k < |states|
    ensures Counts(states[k]) && states[k].max == states[0].max
  {
    if k > 0 {
      RunsCount(states, acts, k - 1);
      CountsKept(states[k - 1], acts[k - 1]);
    }
  }

  // In every reachable state the counter is the number of running jobs, with the one about
  // to be started, and within a non-negative limit; an admitted job still finds room when
  // it is counted; and no decrement is ever suppressed.
  lemma CapacityUnderInterleaving(states: seq<Agent>, acts: seq<Act>, k: nat)
    requires IsSchedule(states, acts) && k < |states|
    ensures var a := states[k];
      && a.running == Live(a.workers) + (if a.reader.Counted? then 1 else 0)
      && (a.max >= 0 ==> a.running <= a.max)
      && (a.reader.Admitted? ==> a.running < a.max)
      && forall i | Possible(a, Decrement(i)) :: Next(a, Decrement(i)).running == a.running - 1
  {
    RunsCount(states, acts, k);
    var a := states[k];
    forall i | Possible(a, Decrement(i)) ensures Next(a, Decrement(i)).running == a.running - 1 {
      LiveUpdated(a.workers, i, Decremented);
    }
  }

  // ---- Wakeups.

  // From a worker's signal until the request loop next checks for room, the signal is
  // waiting or the loop has taken it and is about to check.
  lemma {:induction false} SignalWaits(states: seq<Agent>, acts: seq<Act>, i: nat, k: nat)
    requires IsSchedule(states, acts) && i < k < |states| && acts[i].Signal?
    requires forall j | i < j < k :: !acts[j].CheckRoom?
    ensures states[k].signal || states[k].loop.Woken?
  {
    if k > i + 1 {
      SignalWaits(states, acts, i, k - 1);
    }
  }

  lemma {:induction false} EndedStays(states: seq<Agent>, acts: seq<Act>, i: nat, k: nat, w: nat)
    requires IsSchedule(states, acts) && i <= k < |states|
    requires w < |states[i].workers| && states[i].workers[w].Ended?
    ensures w < |states[k].workers| && states[k].workers[w].Ended?
  {
    if k > i {
      EndedStays(states, acts, i, k - 1, w);
    }
  }

  // No wakeup is lost: after a worker ends, the signal waits for the loop; whatever check
  // comes next no longer counts that worker, and a woken loop then asks for a job exactly
  // when the agent is not paused and the jobs still running, or just counted, leave room.
  lemma NoLostWakeup(states: seq<Agent>, acts: seq<Act>, i: nat, k: nat)
    requires IsSchedule(states, acts) && i < k < |states| && acts[i].Signal?
    requires forall j | i < j < k :: !acts[j].CheckRoom?
    ensures var a := states[k];
      && (a.signal || a.loop.Woken?)
      && acts[i].i < |a.workers| && a.workers[acts[i].i].Ended?
      && (a.loop.Woken? ==>
            var counted := if a.reader.Counted? then 1 else 0;
            Next(a, CheckRoom).loop.SendingNow? <==> !a.paused && Live(a.workers) + counted < a.max)
  {
    SignalWaits(states, acts, i, k);
    EndedStays(states, acts, i + 1, k, acts[i].i);
    RunsCount(states, acts, k);
  }

  // Every check finds out whether there is room: the loop goes on to ask, woken or polling,
  // exactly when the agent is not paused and the jobs at hand leave room, and otherwise waits.
  lemma ChecksAsk(states: seq<Agent>, acts: seq<Act>, k: nat)
    requires IsSchedule(states, acts) && k < |acts| && acts[k].CheckRoom?
    ensures var a, a' := states[k], states[k + 1];
      var room := !a.paused && Live(a.workers) + (if a.reader.Counted? then 1 else 0) < a.max;
      && (a.loop.Woken? || a.loop.Polled?)
      && a'.loop == (if !room then Selecting else if a.loop.Woken? then SendingNow else SendingPolled)
      && a'.running == a.running && a'.signal == a.signal
  {
    RunsCount(states, acts, k);
  }

  // ---- Backoff.

  function Power(n: nat): nat {
    if n == 0 then 1 else 2 * Power(n - 1)
  }

  function Backoff(n: nat): int {
    if MIN_BACKOFF * Power(n) < MAX_BACKOFF then MIN_BACKOFF * Power(n) else MAX_BACKOFF
  }

  lemma {:induction false} PowerGrows(n: nat)
    ensures Power(n) >= 1 && (n >= 6 ==> Power(n) >= 64)
  {
    if n > 0 { PowerGrows(n - 1); }
  }

  lemma BackoffDoubles(n: nat)
    ensures Doubled(Backoff(n)) == Backoff(n + 1)
  {}

  // The cap is reached after exactly six refusals.
  lemma BackoffRange(n: nat)
    ensures 500 <= Backoff(n) <= 30_000 && Backoff(0) == 500
    ensures Backoff(n) == 30_000 <==> n >= 6
  {
    PowerGrows(n);
    if n < 6 {
      assert Power(5) == 2 * Power(4) && Power(4) == 2 * Power(3) && Power(3) == 2 * Power(2);
    }
  }

  // Polls refused since the last reset; a failed periodic send is a reset that leaves one.
  function Refusals(states: seq<Agent>, acts: seq<Act>, k: nat): nat
    requires |states| == |acts| + 1 && k < |states|
  {
    if k == 0 then 0
    else
      var a, n := states[k - 1], Refusals(states, acts, k - 1);
      match acts[k - 1]
      case CheckRoom => if a.loop.Woken? then n else if a.CanAccept() then 0 else n + 1
      case Send(ok) => if a.loop.SendingPolled? && !ok then 1 else 0
      case _ => n
  }

  // In every reachable state the wait is 500 ms doubled once per refusal, up to 30 s.
  lemma {:induction false} BackoffExact(states: seq<Agent>, acts: seq<Act>, k: nat)
    requires IsSchedule(states, acts) && k < |states|
    ensures states[k].backoff == Backoff(Refusals(states, acts, k))
    ensures states[k].loop.SendingPolled? ==> Refusals(states, acts, k) == 0
  {
    if k > 0 {
      BackoffExact(states, acts, k - 1);
      BackoffDoubles(Refusals(states, acts, k - 1));
      BackoffDoubles(0);
    }
  }

  // ---- The request loop by itself.

  // What ends a wait, and how the check for room and the send then go.
  datatype Wake = Stopping | Signalled(room: bool, sent: bool) | TimedOut(room: bool, sent: bool)

  // RefusedPolls polls since the last reset, after these wakes.
  function RefusedPolls(wakes: seq<Wake>): nat {
    if wakes == [] then 0
    else
      var n := RefusedPolls(wakes[..|wakes| - 1]);
      match wakes[|wakes| - 1]
      case Stopping => n
      case Signalled(room, _) => if room then 0 else n
      case TimedOut(room, sent) => if !room then n + 1 else if sent then 0 else 1
  }

  lemma FirstBackoff()
    ensures Backoff(RefusedPolls([])) == MIN_BACKOFF
  {}

  lemma BackoffStep(wakes: seq<Wake>, i: nat)
    requires i < |wakes|
    ensures var before, after := Backoff(RefusedPolls(wakes[..i])), Backoff(RefusedPolls(wakes[..i + 1]));
      match wakes[i]
      case Stopping => true
      case Signalled(room, _) => after == if room then MIN_BACKOFF else before
      case TimedOut(room, sent) =>
        after == if !room then Doubled(before) else if sent then MIN_BACKOFF else Doubled(MIN_BACKOFF)
  {
    assert wakes[..i + 1][..i] == wakes[..i];
    BackoffDoubles(RefusedPolls(wakes[..i]));
    BackoffDoubles(0);
  }

  function TimeOuts(wakes: seq<Wake>): nat {
    if wakes == [] then 0 else TimeOuts(wakes[..|wakes| - 1]) + if wakes[|wakes| - 1].TimedOut? then 1 else 0
  }

  // What the wait depends on: the time-outs without room since the last wake that found room,
  // and whether the send of that wake, if it was a time-out, failed. Nothing older counts, and
  // no signal that finds no room.
  lemma {:induction false} RefusedSince(older: seq<Wake>, reset: Wake, since: seq<Wake>)
    requires Asks(reset) && forall i | 0 <= i < |since| :: !Asks(since[i])
    ensures RefusedPolls(older + [reset] + since)
         == TimeOuts(since) + if reset.TimedOut? && !reset.sent then 1 else 0
  {
    var wakes := older + [reset] + since;
    if since == [] {
      assert wakes == older + [reset] && wakes[..|wakes| - 1] == older;
    } else {
      assert wakes[..|wakes| - 1] == older + [reset] + since[..|since| - 1];
      assert wakes[|wakes| - 1] == since[|since| - 1];
      RefusedSince(older, reset, since[..|since| - 1]);
    }
  }

  predicate Asks(wake: Wake) {
    !wake.Stopping? && wake.room
  }

  // The wakes that the loop of a schedule has dealt with.
  function Wakes(states: seq<Agent>, acts: seq<Act>, k: nat): seq<Wake>
    requires |states| == |acts| + 1 && k < |states|
  {
    if k == 0 then []
    else
      var a, wakes := states[k - 1], Wakes(states, acts, k - 1);
      match acts[k - 1]
      case CheckRoom =>
        if a.CanAccept() then wakes
        else wakes + [if a.loop.Woken? then Signalled(false, false) else TimedOut(false, false)]
      case Send(ok) => wakes + [if a.loop.SendingNow? then Signalled(true, ok) else TimedOut(true, ok)]
      case _ => wakes
  }

  // Threads or not, the wait that the loop arms next depends on those wakes in the same way.
  lemma {:induction false} SchedulesLoop(states: seq<Agent>, acts: seq<Act>, k: nat)
    requires IsSchedule(states, acts) && k < |states|
    ensures !states[k].loop.SendingPolled? ==> states[k].backoff == Backoff(RefusedPolls(Wakes(states, acts, k)))
    ensures states[k].loop.SendingPolled? ==> states[k].backoff == Backoff(0)
  {
    hide Backoff;
    if k == 0 {
      FirstBackoff();
    } else {
      SchedulesLoop(states, acts, k - 1);
      var was, wakes := Wakes(states, acts, k - 1), Wakes(states, acts, k);
      FirstBackoff();
      BackoffDoubles(0);
      if wakes != was {
        assert wakes[..|was|] == was && wakes[..|was| + 1] == wakes;
        BackoffStep(wakes, |was|);
      }
    }
  }

  // The loop over a list of wakes: the timer armed before each of them, and the wakes
  // at which it tried to send a request.
  method JobRequestLoop(wakes: seq<Wake>) returns (waits: seq<int>, asked: set<nat>)
    ensures |waits| <= |wakes|
    ensures forall k | 0 <= k < |waits| :: waits[k] == Backoff(RefusedPolls(wakes[..k]))
    ensures forall k: nat :: k in asked <==> k < |waits| && Asks(wakes[k])
    ensures |waits| < |wakes| ==> waits != [] && wakes[|waits| - 1].Stopping?
    ensures forall k | 0 <= k < |waits| - 1 :: !wakes[k].Stopping?
  {
    hide Backoff, Doubled, RefusedPolls;
    FirstBackoff();
    assert wakes[..0] == [];
    var backoff := MIN_BACKOFF;
    waits, asked := [], {};
    for i: nat := 0 to |wakes|
      invariant |waits| == i && backoff == Backoff(RefusedPolls(wakes[..i]))
      invariant forall k | 0 <= k < i :: waits[k] == Backoff(RefusedPolls(wakes[..k])) && !wakes[k].Stopping?
      invariant forall k: nat :: k in asked <==> k < i && Asks(wakes[k])
    {
      BackoffStep(wakes, i);
      waits := waits + [backoff];
      match wakes[i]
      case Stopping => return;
      case Signalled(room, sent) =>
        if !room { continue; }
        asked := asked + {i};
        backoff := MIN_BACKOFF;
      case TimedOut(room, sent) =>
        if !room {
          backoff := Doubled(backoff);
          continue;
        }
        backoff := MIN_BACKOFF;
        asked := asked + {i};
        if !sent { backoff := Doubled(backoff); }
    }
  }
}
