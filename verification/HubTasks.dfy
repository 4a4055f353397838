/**
 * The calls of HubLocks do their work: none ends without having had its effect on the tables, whatever
 * runs in between.
 */
module HubTasks {
  import opened Base
  import opened Json
  import opened Wire
  import opened HubLocks
  import Hub
  import HI = HubInvariants
  import HE = HubEffects

  /** The places in the code a method can be at. */
  predicate OnTrack(t: Task) {
    var pc := t.pc;
    match t.op
    case Registering => pc.Start? || pc.Drawn? || pc.InClients? || pc.Edited? || pc.Leaving? || pc.Done?
    case Unregistering(_) => pc.Start? || pc.InClients? || pc.Edited? || pc.Leaving? || pc.Done?
    case Reaping(_) => pc.Start? || pc.Drawn? || pc.InClients? || pc.Edited? || pc.Leaving? || pc.Done?
    case Editing(_) => pc.Start? || pc.InClients? || pc.Leaving? || pc.Done?
    case Commanding(_, _, _, _) => pc.Start? || pc.InPending? || pc.Job().Some? || pc.Leaving? || pc.Done?
    case Acking(_) => pc.Start? || pc.InPending? || pc.Firing? || pc.Done?
  }

  /** The method has been through its first section that changes a table. */
  predicate Past(t: Task) {
    var pc := t.pc;
    match t.op
    case Commanding(_, _, _, _) => pc.Job().Some? || pc.Leaving? || pc.Done?
    case Acking(_) => pc.Firing? || pc.Done?
    case _ => pc.Edited? || pc.Leaving? || pc.Done?
  }

  predicate AddsClient(h: Hub.State, h': Hub.State, id: ClientId) {
    h'.clients == h.clients[id := Hub.Client(None, h.now, false)] && h'.chans == h.chans[id := Hub.Chan([], true)]
  }

  /** Exactly the clients silent for longer than the timeout when the clock was read are removed. */
  predicate Reaps(h: Hub.State, h': Hub.State, timeout: nat, stamp: nat) {
    && stamp <= h.now && h'.clients.Keys <= h.clients.Keys
    && forall id :: id in h.clients ==>
         if stamp - h.clients[id].lastSeen > timeout then id !in h'.clients
         else id in h'.clients && h'.clients[id] == h.clients[id]
  }

  /** What that section has to do. */
  ghost predicate Works(h: Hub.State, h': Hub.State, op: Op) {
    match op
    case Registering => exists id :: id in h.drawn && AddsClient(h, h', id)
    case Unregistering(c) => h'.clients == h.clients - {c}
    case Reaping(timeout) => exists stamp :: Reaps(h, h', timeout, stamp)
    case Editing(j) => EditsOne(j) ==> Hub.Enabled(h, j) && h' == Hub.Step(h, j)
    case Commanding(id, name, payload, timeout) =>
      && h'.calls == h.calls + [Hub.Call(id, name, payload, timeout, 0, Hub.Inserted, Hub.Empty)]
      && h'.pending == h.pending[id := |h.calls|]
    case Acking(ack) =>
      && h'.pending == h.pending - {ack.id}
      && (ack.id in h.pending ==> h'.inHand == h.inHand[h.pending[ack.id] := ack])
  }

  lemma StartTracks(s: State, t: TaskId)
    requires t < |s.tasks| && s.tasks[t].pc.Start?
    ensures OnTrack(FromStart(s, t).tasks[t]) && FromStart(s, t).tasks[t].op == s.tasks[t].op && !Past(FromStart(s, t).tasks[t])
  {
  }

  lemma SectionWorks(s: State, t: TaskId, mine: nat)
    requires t < |s.tasks| && s.tasks[t].pc == InClients(mine) && OnTrack(s.tasks[t]) && Fits(s.tasks[t], s.hub.now)
    requires s.tasks[t].op.Registering? ==> mine in s.hub.drawn
    ensures var s' := Edit(s, t, mine);
            OnTrack(s'.tasks[t]) && s'.tasks[t].op == s.tasks[t].op && Works(s.hub, s'.hub, s.tasks[t].op)
  {
    var s', h := Edit(s, t, mine), s.hub;
    hide Hub.Step, Hub.Enabled;
    match s.tasks[t].op
    case Registering => assert AddsClient(h, s'.hub, mine);
    case Unregistering(_) =>
    case Reaping(timeout) => ReapWorks(s, t, mine, timeout);
    case Editing(j) => if EditsOne(j) { EditEnabled(h, j); }
  }

  lemma EditEnabled(h: Hub.State, j: Hub.Input)
    requires EditsOne(j)
    ensures Hub.Enabled(h, j)
  {
  }

  lemma ReapWorks(s: State, t: TaskId, mine: nat, timeout: nat)
    requires t < |s.tasks| && s.tasks[t] == Task(Reaping(timeout), InClients(mine)) && mine <= s.hub.now
    ensures Reaps(s.hub, Edit(s, t, mine).hub, timeout, mine)
  {
    var h, h' := s.hub, Edit(s, t, mine).hub;
    var dead := DeadAt(h, mine, timeout);
    forall id | id in h.clients
      ensures if mine - h.clients[id].lastSeen > timeout then id !in h'.clients
              else id in h'.clients && h'.clients[id] == h.clients[id]
    {
      assert id in dead <==> mine - h.clients[id].lastSeen > timeout;
    }
  }

  lemma PendingWorks(s: State, t: TaskId)
    requires t < |s.tasks| && s.tasks[t].pc.InPending? && OnTrack(s.tasks[t]) && TablesOk(s.hub)
    requires s.tasks[t].op.Commanding? ==> !Hub.Started(s.hub, s.tasks[t].op.id)
    ensures var s' := UsePending(s, t);
            OnTrack(s'.tasks[t]) && s'.tasks[t].op == s.tasks[t].op && Works(s.hub, s'.hub, s.tasks[t].op)
  {
  }

  lemma PlainTracks(s: State, t: TaskId)
    requires Enabled(s, Runs(t)) && OnTrack(s.tasks[t])
    requires !s.tasks[t].pc.Start? && !s.tasks[t].pc.InClients? && !s.tasks[t].pc.InPending?
    ensures var u := Run(s, t).tasks[t]; OnTrack(u) && u.op == s.tasks[t].op && (Past(u) ==> Past(s.tasks[t]))
  {
    hide Hub.Offer, Hub.FailFast, Hub.Resolve, Hub.Finish, Hub.Deliver, Hub.Resolution, WhyFailed, NobodyAccepts;
  }

  /** The step that takes a method through that section does what the section has to do. */
  lemma RunWorks(s: State, t: TaskId)
    requires LocksOk(s) && Enabled(s, Runs(t)) && OnTrack(s.tasks[t])
    ensures var u := Run(s, t).tasks[t];
            OnTrack(u) && u.op == s.tasks[t].op && (Past(u) && !Past(s.tasks[t]) ==> Works(s.hub, Run(s, t).hub, u.op))
  {
    assert Fits(s.tasks[t], s.hub.now) && (Reserved(s.tasks[t]).Some? ==> Reserved(s.tasks[t]).value in s.hub.drawn);
    assert s.tasks[t].pc.InPending? && s.tasks[t].op.Commanding? ==> !Hub.Started(s.hub, s.tasks[t].op.id);
    assert TablesOk(s.hub);
    hide LocksOk, Works, TablesOk, CallKnown;
    if s.tasks[t].pc.Start? {
      hide FromStart;
      StartTracks(s, t);
    } else if s.tasks[t].pc.InClients? {
      hide Edit;
      SectionWorks(s, t, s.tasks[t].pc.mine);
    } else if s.tasks[t].pc.InPending? {
      hide UsePending;
      PendingWorks(s, t);
    } else {
      hide Run;
      PlainTracks(s, t);
    }
  }

  lemma OthersStay(s: State, i: Input, t: TaskId)
    requires Enabled(s, i) && t < |s.tasks| && i != Runs(t)
    ensures |Step(s, i).tasks| == |s.tasks| && Step(s, i).tasks[t] == s.tasks[t]
  {
    if i.Runs? {
      RunMoves(s, i.task);
      hide Run, Enabled, LockMoves;
    }
  }

  lemma OwnStays(s: State, t: TaskId)
    requires Enabled(s, Runs(t))
    ensures |Run(s, t).tasks| == |s.tasks|
  {
    RunMoves(s, t);
    hide Run, Enabled, LockMoves;
  }

  lemma OneStep(run: seq<State>, inputs: seq<Input>, k: nat)
    requires IsRun(run, inputs) && k < |inputs|
    ensures |run| == |inputs| + 1 && LocksOk(run[k]) && Enabled(run[k], inputs[k]) && run[k + 1] == Step(run[k], inputs[k])
  {
    RunOk(run, inputs, k);
  }

  lemma {:induction false} RunTracks(run: seq<State>, inputs: seq<Input>, k: nat, t: TaskId)
    requires IsRun(run, inputs) && k < |run| && t < |run[0].tasks|
    ensures |run[k].tasks| == |run[0].tasks| && OnTrack(run[k].tasks[t]) && run[k].tasks[t].op == run[0].tasks[t].op
  {
    if k > 0 {
      OneStep(run, inputs, k - 1);
      hide IsRun, Run, Enabled, LocksOk, OnTrack, Works, Past;
      RunTracks(run, inputs, k - 1, t);
      var s, i := run[k - 1], inputs[k - 1];
      if i == Runs(t) {
        OwnStays(s, t);
        RunWorks(s, t);
      } else {
        OthersStay(s, i, t);
      }
    }
  }

  /**
   * However N calls interleave, a call that is past its section, and so one that is done, went through
   * it in one step of its own, and that step did the call's work on the tables as they were then.
   */
  lemma {:induction false} TakesEffect(run: seq<State>, inputs: seq<Input>, k: nat, t: TaskId) returns (i: nat)
    requires IsRun(run, inputs) && k < |run| && t < |run[0].tasks|
    requires t < |run[k].tasks| && Past(run[k].tasks[t])
    ensures i < k && inputs[i] == Runs(t) && Works(run[i].hub, run[i + 1].hub, run[0].tasks[t].op)
  {
    RunTracks(run, inputs, k, t);
    if k == 0 {
      assert false;
    } else {
      OneStep(run, inputs, k - 1);
      RunTracks(run, inputs, k - 1, t);
      hide IsRun, Run, Enabled, LocksOk, OnTrack, Works;
      if Past(run[k - 1].tasks[t]) {
        i := TakesEffect(run, inputs, k - 1, t);
      } else {
        i := k - 1;
        if inputs[i] != Runs(t) { OthersStay(run[i], inputs[i], t); }
        RunWorks(run[i], t);
      }
    }
  }

  // ---- Commands ----

  /** The call that a command started. */
  predicate IsCall(h: Hub.State, n: CallId, op: Op) {
    op.Commanding? && n < |h.calls| && h.calls[n].id == op.id && h.calls[n].name == op.name && h.calls[n].payload == op.payload
  }

  predicate Over(h: Hub.State, n: CallId) {
    n < |h.calls| && h.calls[n].phase.Finished?
  }

  lemma HubKeepsCall(h: Hub.State, j: Hub.Input, n: CallId, op: Op)
    requires Hub.Enabled(h, j) && IsCall(h, n, op)
    ensures IsCall(Hub.Step(h, j), n, op) && (Over(h, n) ==> Over(Hub.Step(h, j), n))
  {
    if HI.Idle(j) || j.DoTake? {
      IdleKeepsCalls(h, j);
      hide Hub.Step, Hub.Enabled;
    } else {
      hide Hub.Targets, Hub.Accepts, Hub.OfferTo, Hub.CmdFrame, Hub.Resolution;
    }
  }

  lemma IdleKeepsCalls(h: Hub.State, j: Hub.Input)
    requires Hub.Enabled(h, j) && (HI.Idle(j) || j.DoTake?)
    ensures Hub.Step(h, j).calls == h.calls
  {
    hide Print;
  }

  lemma StepKeepsCall(s: State, i: Input, n: CallId, op: Op)
    requires LocksOk(s) && Enabled(s, i) && IsCall(s.hub, n, op)
    ensures IsCall(Step(s, i).hub, n, op) && (Over(s.hub, n) ==> Over(Step(s, i).hub, n))
  {
    StepRefines(s, i);
    var c := Committed(s, i);
    hide LocksOk, Enabled, Step, Committed, Hub.Step, Hub.Enabled;
    if c.Some? { HubKeepsCall(Seen(s), c.value, n, op); }
  }

  lemma BeginsCall(s: State, t: TaskId)
    requires LocksOk(s) && Enabled(s, Runs(t)) && s.tasks[t].op.Commanding? && s.tasks[t].pc.InPending?
    ensures var s' := Run(s, t); s'.tasks[t].pc.Job() == Some(|s.hub.calls|) && IsCall(s'.hub, |s.hub.calls|, s.tasks[t].op)
  {
    hide LocksOk;
  }

  lemma JobGoesOn(s: State, t: TaskId)
    requires Enabled(s, Runs(t)) && s.tasks[t].pc.Job().Some?
    ensures var n, u := s.tasks[t].pc.Job().value, Run(s, t).tasks[t].pc;
            u.Job() == Some(n) || ((u.Leaving? || u.Done?) && Over(Run(s, t).hub, n))
  {
    hide NobodyAccepts, WhyFailed, Hub.Resolution, Hub.Resolve;
  }

  /** Where a command is, it has its own call, under its id, name and payload; at its end that call is over. */
  ghost predicate Serves(s: State, t: TaskId, n: CallId) {
    && t < |s.tasks| && IsCall(s.hub, n, s.tasks[t].op)
    && (s.tasks[t].pc.Job().Some? ==> s.tasks[t].pc.Job() == Some(n))
    && (s.tasks[t].pc.Leaving? || s.tasks[t].pc.Done? ==> Over(s.hub, n))
  }

  lemma OwnServes(s: State, t: TaskId, n: CallId)
    requires LocksOk(s) && Enabled(s, Runs(t)) && Serves(s, t, n) && OnTrack(s.tasks[t]) && Past(s.tasks[t])
    ensures Serves(Run(s, t), t, n)
  {
    StepKeepsCall(s, Runs(t), n, s.tasks[t].op);
    RunWorks(s, t);
    OwnStays(s, t);
    if s.tasks[t].pc.Job().Some? {
      hide LocksOk, Run, Enabled, IsCall, Over;
      JobGoesOn(s, t);
    } else {
      hide LocksOk, IsCall, Over;
      assert s.tasks[t].pc.Leaving?;
    }
  }

  /** A command that is done leaves a finished call of its own behind, however the other calls ran. */
  lemma {:induction false} CommandEnds(run: seq<State>, inputs: seq<Input>, k: nat, t: TaskId) returns (n: CallId)
    requires IsRun(run, inputs) && k < |run| && t < |run[0].tasks| && run[0].tasks[t].op.Commanding?
    requires t < |run[k].tasks| && Past(run[k].tasks[t])
    ensures Serves(run[k], t, n) && run[k].tasks[t].op == run[0].tasks[t].op
  {
    RunTracks(run, inputs, k, t);
    if k == 0 {
      assert false;
    } else {
      OneStep(run, inputs, k - 1);
      RunTracks(run, inputs, k - 1, t);
      hide IsRun, Run, Enabled, LocksOk, IsCall, Over, Works;
      var s, i := run[k - 1], inputs[k - 1];
      if Past(s.tasks[t]) {
        n := CommandEnds(run, inputs, k - 1, t);
        if i == Runs(t) {
          OwnServes(s, t, n);
        } else {
          OthersStay(s, i, t);
          StepKeepsCall(s, i, n, s.tasks[t].op);
        }
      } else {
        if i != Runs(t) { OthersStay(s, i, t); }
        n := |s.hub.calls|;
        RunWorks(s, t);
        StartsPending(s, t);
        BeginsCall(s, t);
        OwnStays(s, t);
      }
    }
  }

  /** A command comes past its first section only out of it. */
  lemma StartsPending(s: State, t: TaskId)
    requires Enabled(s, Runs(t)) && OnTrack(s.tasks[t]) && s.tasks[t].op.Commanding?
    requires !Past(s.tasks[t]) && Past(Run(s, t).tasks[t])
    ensures s.tasks[t].pc.InPending?
  {
    hide UsePending;
  }

  // ---- Acks ----

  lemma FiringStarts(s: State, t: TaskId)
    requires Enabled(s, Runs(t)) && s.tasks[t].op.Acking? && OnTrack(s.tasks[t])
    ensures var u, h, ack := Run(s, t).tasks[t].pc, s.hub, s.tasks[t].op.ack;
            && (u.Firing? ==> s.tasks[t].pc.InPending? && ack.id in h.pending && u.call == h.pending[ack.id])
            && (u.Done? ==> (s.tasks[t].pc.InPending? && ack.id !in h.pending) || s.tasks[t].pc.Firing?)
  {
    hide Hub.Take, Hub.Deliver;
  }

  /** A sender about to fire was taken out of the table by the same call. */
  lemma {:induction false} FiringSince(run: seq<State>, inputs: seq<Input>, k: nat, t: TaskId) returns (i: nat)
    requires IsRun(run, inputs) && k < |run| && t < |run[0].tasks| && run[0].tasks[t].op.Acking?
    requires t < |run[k].tasks| && run[k].tasks[t].pc.Firing?
    ensures i < k && inputs[i] == Runs(t) && Works(run[i].hub, run[i + 1].hub, run[0].tasks[t].op)
    ensures var id := run[0].tasks[t].op.ack.id; id in run[i].hub.pending && run[i].hub.pending[id] == run[k].tasks[t].pc.call
  {
    RunTracks(run, inputs, k, t);
    if k == 0 {
      assert false;
    } else {
      OneStep(run, inputs, k - 1);
      RunTracks(run, inputs, k - 1, t);
      hide IsRun, Run, Enabled, LocksOk, Works;
      if inputs[k - 1] == Runs(t) {
        i := k - 1;
        RunWorks(run[i], t);
        FiringStarts(run[i], t);
      } else {
        OthersStay(run[k - 1], inputs[k - 1], t);
        i := FiringSince(run, inputs, k - 1, t);
      }
    }
  }

  /** The sender that step i of the call took was fired by step j of the same call. */
  ghost predicate Fired(run: seq<State>, inputs: seq<Input>, i: nat, j: nat, k: nat, t: TaskId, id: string)
    requires IsRun(run, inputs) && i < k < |run|
  {
    id in run[i].hub.pending ==>
      && i < j < k && inputs[j] == Runs(t) && run[i].hub.pending[id] in run[j].hub.inHand
      && run[j + 1].hub == Hub.Step(run[j].hub, Hub.DoDeliver(run[i].hub.pending[id]))
  }

  /**
   * A call that dispatches an ack, once done, took the sender of the call it names out of the table, if
   * there was one, and later fired that very sender.
   */
  lemma {:induction false} AckEnds(run: seq<State>, inputs: seq<Input>, k: nat, t: TaskId) returns (i: nat, j: nat)
    requires IsRun(run, inputs) && k < |run| && t < |run[0].tasks| && run[0].tasks[t].op.Acking?
    requires t < |run[k].tasks| && run[k].tasks[t].pc.Done?
    ensures i < k && inputs[i] == Runs(t) && Works(run[i].hub, run[i + 1].hub, run[0].tasks[t].op)
    ensures Fired(run, inputs, i, j, k, t, run[0].tasks[t].op.ack.id)
  {
    RunTracks(run, inputs, k, t);
    if k == 0 {
      assert false;
    } else {
      OneStep(run, inputs, k - 1);
      RunTracks(run, inputs, k - 1, t);
      hide IsRun, Run, Enabled, LocksOk, Works, OnTrack;
      if run[k - 1].tasks[t].pc.Done? {
        i, j := AckEnds(run, inputs, k - 1, t);
      } else {
        if inputs[k - 1] != Runs(t) { OthersStay(run[k - 1], inputs[k - 1], t); }
        hide Fired;
        i, j := LastStep(run, inputs, k - 1, t);
      }
    }
  }

  lemma LastStep(run: seq<State>, inputs: seq<Input>, k: nat, t: TaskId) returns (i: nat, j: nat)
    requires IsRun(run, inputs) && k < |inputs| && t < |run[0].tasks| && run[0].tasks[t].op.Acking?
    requires |run[k].tasks| == |run[0].tasks| == |run[k + 1].tasks|
    requires OnTrack(run[k].tasks[t]) && run[k].tasks[t].op == run[0].tasks[t].op
    requires inputs[k] == Runs(t) && run[k + 1].tasks[t].pc.Done?
    ensures i <= k && inputs[i] == Runs(t) && Works(run[i].hub, run[i + 1].hub, run[0].tasks[t].op)
    ensures Fired(run, inputs, i, j, k + 1, t, run[0].tasks[t].op.ack.id)
  {
    OneStep(run, inputs, k);
    hide IsRun, Run, Enabled, LocksOk, Works, OnTrack, Hub.Step;
    FiringStarts(run[k], t);
    if run[k].tasks[t].pc.Firing? {
      FiringKnown(run[k], t);
      i := FiringSince(run, inputs, k, t);
      j := k;
    } else {
      i, j := k, k;
      RunWorks(run[k], t);
    }
  }

  lemma FiringKnown(s: State, t: TaskId)
    requires Enabled(s, Runs(t)) && s.tasks[t].pc.Firing?
    ensures s.tasks[t].pc.call in s.hub.inHand && Run(s, t).hub == Hub.Step(s.hub, Hub.DoDeliver(s.tasks[t].pc.call))
  {
    hide Hub.Deliver;
  }
}
