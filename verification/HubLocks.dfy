/**
 * The hub's two mutexes (crates/infinity-bridge-host/src/hub.rs), step by step: any number of
 * concurrent method calls, each a task that locks, changes one thing at a time and unlocks, with
 * everything else running in between. The sections that the module Hub treats as single steps are
 * shown to behave as single steps.
 */
module HubLocks {
  import opened Base
  import opened Json
  import opened Wire
  import Hub
  import HI = HubInvariants

  type TaskId = nat
  type ClientId = Hub.ClientId
  type CallId = Hub.CallId

  datatype Lock = Clients | Pending

  /** One call of a hub method. */
  datatype Op =
    | Registering
    | Unregistering(client: ClientId)
    | Reaping(timeout: nat)
    | Editing(edit: Hub.Input)    // the other methods that take only the clients lock
    | Commanding(id: string, name: Option<string>, payload: Json, timeout: nat)
    | Acking(ack: AckPayload)

  datatype Pc =
    | Start
    | Drawn(mine: nat)            // id drawn, or clock read; nothing locked
    | InClients(mine: nat)        // clients locked
    | Edited                      // clients locked, table changed, watch not yet
    | Leaving                     // clients locked, nothing left to do
    | InPending                   // pending locked
    | Stored(call: CallId)        // waiter stored, nothing locked
    | Offering(call: CallId)      // clients locked
    | Failing(call: CallId, why: Hub.Outcome)      // clients locked, pending wanted
    | FailingBoth(call: CallId, why: Hub.Outcome)  // both locked
    | Sent(call: CallId)          // clients locked
    | Awaiting(call: CallId)      // nothing locked
    | Resolved(call: CallId)      // nothing locked
    | Cleaning(call: CallId)      // pending locked
    | Firing(call: CallId)        // sender taken out of the table, nothing locked
    | Done
  {
    predicate Holds(l: Lock) {
      match l
      case Clients => InClients? || Edited? || Leaving? || Offering? || Failing? || FailingBoth? || Sent?
      case Pending => InPending? || FailingBoth? || Cleaning?
    }

    /** The call a command task works for. */
    function Job(): Option<CallId> {
      match this
      case Stored(n) => Some(n)
      case Offering(n) => Some(n)
      case Failing(n, _) => Some(n)
      case FailingBoth(n, _) => Some(n)
      case Sent(n) => Some(n)
      case Awaiting(n) => Some(n)
      case Resolved(n) => Some(n)
      case Cleaning(n) => Some(n)
      case _ => None
    }

    /** Steps left at most. */
    function Rank(): nat {
      match this
      case Start => 10
      case Drawn(_) => 9
      case InPending => 9
      case Stored(_) => 8
      case InClients(_) => 7
      case Offering(_) => 7
      case Failing(_, _) => 6
      case FailingBoth(_, _) => 5
      case Sent(_) => 5
      case Edited => 4
      case Awaiting(_) => 4
      case Resolved(_) => 3
      case Cleaning(_) => 2
      case Leaving => 1
      case Firing(_) => 1
      case Done => 0
    }
  }

  datatype Task = Task(op: Op, pc: Pc) {
    /** The lock the next step has to take. */
    function Wants(): Option<Lock> {
      match pc
      case Start =>
        if op.Registering? || op.Reaping? then None
        else if op.Commanding? || op.Acking? then Some(Pending) else Some(Clients)
      case Drawn(_) => Some(Clients)
      case Stored(_) => Some(Clients)
      case Failing(_, _) => Some(Pending)
      case Resolved(_) => Some(Pending)
      case _ => None
    }
  }

  datatype State = State(hub: Hub.State, clientsLock: Option<TaskId>, pendingLock: Option<TaskId>, tasks: seq<Task>)

  datatype Input = Runs(task: TaskId) | Outside(event: Hub.Input)

  predicate EditsOne(i: Hub.Input) {
    i.DoHello? || i.DoTouch? || i.DoReady? || i.DoSendTo? || i.DoEmit?
  }

  /** What goes on without any lock: writers and the clock. */
  predicate Lockless(i: Hub.Input) {
    i.WriterSends? || i.WriterEnds? || i.TimePasses?
  }

  predicate Free(s: State, l: Lock) {
    if l.Clients? then s.clientsLock.None? else s.pendingLock.None?
  }

  /** Where a command task is, its call is too. */
  predicate CallKnown(h: Hub.State, pc: Pc) {
    match pc
    case Stored(n) => n < |h.calls| && h.calls[n].phase.Inserted?
    case Offering(n) => n < |h.calls| && h.calls[n].phase.Inserted?
    case Failing(n, why) => n < |h.calls| && h.calls[n].phase.Inserted? && WhyFailed(h, why)
    case FailingBoth(n, why) => n < |h.calls| && h.calls[n].phase.Inserted? && WhyFailed(h, why)
    case Sent(n) => n < |h.calls| && h.calls[n].phase.Waiting?
    case Awaiting(n) => n < |h.calls| && h.calls[n].phase.Waiting?
    case Resolved(n) => n < |h.calls| && h.calls[n].phase.Resolved?
    case Cleaning(n) => n < |h.calls| && h.calls[n].phase.Resolved?
    case Firing(n) => n < |h.calls| && n in h.inHand
    case _ => true
  }

  predicate WhyFailed(h: Hub.State, why: Hub.Outcome) {
    NobodyAccepts(h) && why == (if h.clients == map[] then Hub.NO_GAUGES else Hub.NOT_ACCEPTED)
  }

  predicate Enabled(s: State, i: Input) {
    match i
    case Runs(t) =>
      && t < |s.tasks| && !s.tasks[t].pc.Done? && CallKnown(s.hub, s.tasks[t].pc)
      && (s.tasks[t].Wants().Some? ==> Free(s, s.tasks[t].Wants().value))
      && (s.tasks[t].pc.Awaiting? ==> Answered(s.hub, s.tasks[t].pc.call))
    case Outside(j) => Lockless(j) && Hub.Enabled(s.hub, j)
  }

  predicate Answered(h: Hub.State, n: CallId) {
    n < |h.calls| && Hub.Resolution(h, h.calls[n]).Some?
  }

  // ---- Steps ----

  function At(s: State, t: TaskId, pc: Pc): State
    requires t < |s.tasks|
  {
    s.(tasks := s.tasks[t := s.tasks[t].(pc := pc)])
  }

  /** The clients a reaper that read the clock at `stamp` considers dead. */
  function DeadAt(h: Hub.State, stamp: nat, timeout: nat): set<ClientId> {
    set id | id in h.clients && stamp > h.clients[id].lastSeen + timeout
  }

  function FromStart(s: State, t: TaskId): State
    requires t < |s.tasks|
  {
    match s.tasks[t].op
    case Registering => At(s, t, Drawn(s.hub.nextId)).(hub := Hub.Draw(s.hub))
    case Reaping(_) => At(s, t, Drawn(s.hub.now))
    case Commanding(_, _, _, _) => At(s, t, InPending).(pendingLock := Some(t))
    case Acking(_) => At(s, t, InPending).(pendingLock := Some(t))
    case _ => At(s, t, InClients(0)).(clientsLock := Some(t))
  }

  function Edit(s: State, t: TaskId, mine: nat): State
    requires t < |s.tasks|
  {
    var h := s.hub;
    match s.tasks[t].op
    case Registering =>
      At(s, t, Edited).(hub := h.(drawn := h.drawn - {mine},
                                  clients := h.clients[mine := Hub.Client(None, h.now, false)],
                                  chans := h.chans[mine := Hub.Chan([], true)]))
    case Unregistering(c) => At(s, t, Edited).(hub := h.(clients := h.clients - {c}))
    case Reaping(timeout) =>
      var dead := DeadAt(h, mine, timeout);
      if dead == {} then At(s, t, Leaving) else At(s, t, Edited).(hub := h.(clients := h.clients - dead))
    case Editing(j) => At(s, t, Leaving).(hub := if EditsOne(j) && Hub.Enabled(h, j) then Hub.Step(h, j) else h)
    case _ => At(s, t, Leaving)
  }

  function UsePending(s: State, t: TaskId): State
    requires t < |s.tasks|
  {
    var h, s1 := s.hub, s.(pendingLock := None);
    match s.tasks[t].op
    case Commanding(id, name, payload, timeout) =>
      At(s1, t, Stored(|h.calls|)).(hub := Hub.Begin(h, id, name, payload, timeout))
    case Acking(ack) =>
      if ack.id in h.pending then At(s1, t, Firing(h.pending[ack.id])).(hub := Hub.Take(h, ack)) else At(s1, t, Done)
    case _ => At(s1, t, Done)
  }

  predicate NobodyAccepts(h: Hub.State) {
    h.clients == map[] || forall id :: id in Hub.Targets(h) ==> !Hub.Accepts(h, id)
  }

  function Offer(s: State, t: TaskId, n: CallId): State
    requires t < |s.tasks| && n < |s.hub.calls|
  {
    var h := s.hub;
    if NobodyAccepts(h)
    then At(s, t, Failing(n, if h.clients == map[] then Hub.NO_GAUGES else Hub.NOT_ACCEPTED))
    else At(s, t, Sent(n)).(hub := Hub.Offer(h, n))
  }

  /** The next step of one task. */
  function Run(s: State, t: TaskId): State
    requires Enabled(s, Runs(t))
  {
    match s.tasks[t].pc
    case Start => FromStart(s, t)
    case Drawn(mine) => At(s, t, InClients(mine)).(clientsLock := Some(t))
    case InClients(mine) => Edit(s, t, mine)
    case Edited => At(s, t, Leaving).(hub := s.hub.(watch := s.hub.clients != map[]))
    case Leaving => At(s, t, Done).(clientsLock := None)
    case InPending => UsePending(s, t)
    case Stored(n) => At(s, t, Offering(n)).(clientsLock := Some(t))
    case Offering(n) => Offer(s, t, n)
    case Failing(n, why) => At(s, t, FailingBoth(n, why)).(pendingLock := Some(t))
    case FailingBoth(n, why) => At(s, t, Leaving).(hub := Hub.FailFast(s.hub, n, why), pendingLock := None)
    case Sent(n) => At(s, t, Awaiting(n)).(clientsLock := None)
    case Awaiting(n) => At(s, t, Resolved(n)).(hub := Hub.Resolve(s.hub, n))
    case Resolved(n) => At(s, t, Cleaning(n)).(pendingLock := Some(t))
    case Cleaning(n) => At(s, t, Done).(hub := Hub.Finish(s.hub, n), pendingLock := None)
    case Firing(n) => At(s, t, Done).(hub := Hub.Deliver(s.hub, n))
  }

  function Step(s: State, i: Input): State
    requires Enabled(s, i)
  {
    match i
    case Runs(t) => Run(s, t)
    case Outside(j) => s.(hub := Hub.Step(s.hub, j))
  }

  /** N calls about to start on a new hub; command ids are fresh. */
  ghost predicate Initial(s: State) {
    && s.hub == Hub.INITIAL && s.clientsLock.None? && s.pendingLock.None?
    && (forall t: TaskId :: t < |s.tasks| ==> s.tasks[t].pc.Start?)
    && FreshIds(s)
  }

  /** No two commands share an id, and one that has not begun is not in the hub's records. */
  ghost predicate FreshIds(s: State) {
    && (forall t: TaskId, u: TaskId :: t < u < |s.tasks| && s.tasks[t].op.Commanding? && s.tasks[u].op.Commanding? ==>
          s.tasks[t].op.id != s.tasks[u].op.id)
    && (forall t: TaskId :: t < |s.tasks| && s.tasks[t].op.Commanding? && (s.tasks[t].pc.Start? || s.tasks[t].pc.InPending?) ==>
          !Hub.Started(s.hub, s.tasks[t].op.id))
  }

  ghost predicate IsRun(run: seq<State>, inputs: seq<Input>) {
    && |run| == |inputs| + 1
    && Initial(run[0])
    && forall k :: 0 <= k < |inputs| ==> Enabled(run[k], inputs[k]) && run[k + 1] == Step(run[k], inputs[k])
  }

  // ---- Invariants ----

  /** A lock is held by one task, the one whose place in the code says so. */
  ghost predicate Exclusive(s: State) {
    && (forall t: TaskId :: t < |s.tasks| ==> (s.tasks[t].pc.Holds(Clients) <==> s.clientsLock == Some(t)))
    && (forall t: TaskId :: t < |s.tasks| ==> (s.tasks[t].pc.Holds(Pending) <==> s.pendingLock == Some(t)))
    && (s.clientsLock.Some? ==> s.clientsLock.value < |s.tasks|)
    && (s.pendingLock.Some? ==> s.pendingLock.value < |s.tasks|)
  }

  /** How one task's step moves it and the two locks. */
  predicate LockMoves(owner: Option<TaskId>, owner': Option<TaskId>, t: TaskId, before: bool, after: bool) {
    && owner' == (if before == after then owner else if after then Some(t) else None)
    && (after && !before ==> owner.None?)
  }

  ghost predicate TaskMoves(s: State, s': State, t: TaskId)
    requires t < |s.tasks|
  {
    && |s'.tasks| == |s.tasks| && s'.tasks == s.tasks[t := s.tasks[t].(pc := s'.tasks[t].pc)]
    && LockMoves(s.clientsLock, s'.clientsLock, t, s.tasks[t].pc.Holds(Clients), s'.tasks[t].pc.Holds(Clients))
    && LockMoves(s.pendingLock, s'.pendingLock, t, s.tasks[t].pc.Holds(Pending), s'.tasks[t].pc.Holds(Pending))
    && s'.tasks[t].pc.Rank() < s.tasks[t].pc.Rank()
  }

  lemma StartMoves(s: State, t: TaskId)
    requires Enabled(s, Runs(t)) && s.tasks[t].pc.Start?
    ensures TaskMoves(s, FromStart(s, t), t)
  {
  }

  lemma SectionMoves(s: State, t: TaskId)
    requires t < |s.tasks|
    ensures s.tasks[t].pc.InClients? ==> TaskMoves(s, Edit(s, t, s.tasks[t].pc.mine), t)
    ensures s.tasks[t].pc.InPending? ==> TaskMoves(s, UsePending(s, t), t)
    ensures s.tasks[t].pc.Offering? && s.tasks[t].pc.call < |s.hub.calls| ==>
              TaskMoves(s, Offer(s, t, s.tasks[t].pc.call), t)
  {
    hide Hub.Begin, Hub.Take, Hub.Offer, Hub.Step, Hub.Enabled, Hub.Targets, Hub.Accepts, DeadAt;
  }

  /** The steps that only take, release or announce. */
  lemma PlainMoves(s: State, t: TaskId)
    requires Enabled(s, Runs(t)) && !s.tasks[t].pc.Start?
    requires !s.tasks[t].pc.InClients? && !s.tasks[t].pc.InPending? && !s.tasks[t].pc.Offering?
    ensures TaskMoves(s, Run(s, t), t)
  {
    hide Hub.FailFast, Hub.Resolve, Hub.Finish, Hub.Deliver, Hub.Resolution, WhyFailed, NobodyAccepts;
  }

  lemma RunMoves(s: State, t: TaskId)
    requires Enabled(s, Runs(t))
    ensures t < |s.tasks| && TaskMoves(s, Run(s, t), t)
  {
    var pc := s.tasks[t].pc;
    hide FromStart, Edit, UsePending, Offer, TaskMoves;
    if pc.Start? {
      StartMoves(s, t);
    } else if pc.InClients? || pc.InPending? || pc.Offering? {
      SectionMoves(s, t);
    } else {
      hide Run;
      PlainMoves(s, t);
    }
  }

  lemma MovesExclusive(s: State, s': State, t: TaskId)
    requires Exclusive(s) && t < |s.tasks| && TaskMoves(s, s', t)
    ensures Exclusive(s')
  {
    hide Task.Wants, Pc.Rank;
  }

  // ---- The watch value ----

  /** Unless some task is between changing the table and announcing it, the watch tells the truth. */
  ghost predicate WatchRight(s: State) {
    (forall t: TaskId :: t < |s.tasks| ==> !s.tasks[t].pc.Edited?) ==> (s.hub.watch <==> s.hub.clients != map[])
  }

  /** What no step but a table change or an announcement touches. */
  predicate SamePresence(h: Hub.State, h': Hub.State) {
    h'.watch == h.watch && h'.clients.Keys == h.clients.Keys
  }

  lemma NoClients(h: Hub.State)
    ensures h.clients == map[] <==> h.clients.Keys == {}
  {
    if h.clients != map[] {
      var k :| k in h.clients;
      assert k in h.clients.Keys;
    }
  }

  lemma EditPresence(h: Hub.State, j: Hub.Input)
    requires (EditsOne(j) || Lockless(j)) && Hub.Enabled(h, j)
    ensures var h' := Hub.Step(h, j); SamePresence(h, h') && h'.nextId == h.nextId && h'.drawn == h.drawn
  {
    hide Print;
  }

  lemma CommandPresence(h: Hub.State, n: CallId)
    requires n < |h.calls|
    ensures var h' := Hub.Offer(h, n); SamePresence(h, h') && h'.nextId == h.nextId && h'.drawn == h.drawn
  {
    HI.OfferClients(h, n);
    hide Hub.Offer;
  }

  lemma SectionPresence(s: State, t: TaskId, mine: nat)
    requires t < |s.tasks| && s.tasks[t].pc == InClients(mine)
    ensures var h, s' := s.hub, Edit(s, t, mine);
            && s'.hub.nextId == h.nextId && s'.hub.watch == h.watch
            && s'.hub.drawn == (if s.tasks[t].op.Registering? then h.drawn - {mine} else h.drawn)
            && (s'.tasks[t].pc.Edited? || s'.hub.clients.Keys == h.clients.Keys)
            && (s'.tasks[t].pc.Edited? || s'.tasks[t].pc.Leaving?)
  {
    hide Hub.Step, Hub.Enabled, DeadAt;
    if s.tasks[t].op.Editing? && EditsOne(s.tasks[t].op.edit) && Hub.Enabled(s.hub, s.tasks[t].op.edit) {
      EditPresence(s.hub, s.tasks[t].op.edit);
    }
  }

  lemma PendingPresence(s: State, t: TaskId)
    requires t < |s.tasks|
    ensures var h' := UsePending(s, t).hub; SamePresence(s.hub, h') && h'.nextId == s.hub.nextId && h'.drawn == s.hub.drawn
  {
  }

  /** The table edit of a registration. */
  predicate Inserts(t: Task) {
    t.op.Registering? && t.pc.InClients?
  }

  predicate Draws(t: Task) {
    t.op.Registering? && t.pc.Start?
  }

  /** Which steps change who is connected, or the ids handed out. */
  lemma RunPresence(s: State, t: TaskId)
    requires Enabled(s, Runs(t))
    ensures var task, s' := s.tasks[t], Run(s, t);
            && (if task.pc.Edited?
                then s'.hub.clients == s.hub.clients && s'.hub.watch == (s.hub.clients != map[])
                else s'.hub.watch == s.hub.watch && (s'.tasks[t].pc.Edited? || s'.hub.clients.Keys == s.hub.clients.Keys))
            && s'.hub.nextId == s.hub.nextId + (if Draws(task) then 1 else 0)
            && s'.hub.drawn == (if Draws(task) then s.hub.drawn + {s.hub.nextId}
                                else if Inserts(task) then s.hub.drawn - {task.pc.mine} else s.hub.drawn)
  {
    hide Edit, UsePending, Hub.Offer, NobodyAccepts, WhyFailed, Hub.Resolution;
    if s.tasks[t].pc.InPending? { PendingPresence(s, t); }
    if s.tasks[t].pc.InClients? { SectionPresence(s, t, s.tasks[t].pc.mine); }
    if s.tasks[t].pc.Offering? { CommandPresence(s.hub, s.tasks[t].pc.call); }
  }

  lemma RunWatch(s: State, t: TaskId)
    requires WatchRight(s) && Enabled(s, Runs(t))
    ensures WatchRight(Run(s, t))
  {
    hide Run, Enabled;
    RunMoves(s, t);
    RunPresence(s, t);
    hide LockMoves;
    var s' := Run(s, t);
    NoClients(s.hub);
    NoClients(s'.hub);
    if forall u: TaskId :: u < |s'.tasks| ==> !s'.tasks[u].pc.Edited? {
      if !s.tasks[t].pc.Edited? {
        assert forall u: TaskId :: u < |s.tasks| ==> !s.tasks[u].pc.Edited? by {
          forall u: TaskId | u < |s.tasks| ensures !s.tasks[u].pc.Edited? { assert !s'.tasks[u].pc.Edited?; }
        }
      }
      assert !s'.tasks[t].pc.Edited?;
    }
  }

  // ---- Client ids ----

  /** The id this task has drawn and not yet put in the table. */
  function Reserved(t: Task): Option<ClientId> {
    if !t.op.Registering? then None
    else match t.pc
      case Drawn(id) => Some(id)
      case InClients(id) => Some(id)
      case _ => None
  }

  /** Every registration under way has a drawn id of its own. */
  ghost predicate IdsOk(s: State) {
    && (forall k :: k in s.hub.drawn ==> k < s.hub.nextId)
    && (forall t: TaskId :: t < |s.tasks| && Reserved(s.tasks[t]).Some? ==> Reserved(s.tasks[t]).value in s.hub.drawn)
    && (forall t: TaskId, u: TaskId :: t < u < |s.tasks| && Reserved(s.tasks[t]).Some? ==>
          Reserved(s.tasks[t]) != Reserved(s.tasks[u]))
  }

  lemma ReservedNext(s: State, t: TaskId)
    requires Enabled(s, Runs(t))
    ensures var before, after := Reserved(s.tasks[t]), Reserved(Run(s, t).tasks[t]);
            if Draws(s.tasks[t]) then before == None && after == Some(s.hub.nextId)
            else if Inserts(s.tasks[t]) then before == Some(s.tasks[t].pc.mine) && after == None
            else after == before || after == None
  {
    hide Hub.Begin, Hub.Take, Hub.Offer, Hub.FailFast, Hub.Resolve, Hub.Finish, Hub.Deliver, Hub.Step, Hub.Enabled,
      NobodyAccepts, Hub.Resolution, DeadAt, WhyFailed;
  }

  lemma RunIds(s: State, t: TaskId)
    requires IdsOk(s) && Enabled(s, Runs(t))
    ensures IdsOk(Run(s, t))
  {
    RunMoves(s, t);
    RunPresence(s, t);
    ReservedNext(s, t);
    hide Run, Enabled, LockMoves, Reserved;
    var s' := Run(s, t);
    assert forall u: TaskId :: u < |s.tasks| && u != t ==> s'.tasks[u] == s.tasks[u];
  }

  lemma OutsideKeeps(s: State, j: Hub.Input)
    requires Lockless(j) && Hub.Enabled(s.hub, j)
    ensures var s' := Step(s, Outside(j)); (WatchRight(s) ==> WatchRight(s')) && (IdsOk(s) ==> IdsOk(s'))
  {
    hide Hub.Step, Hub.Enabled, Lockless;
    EditPresence(s.hub, j);
    NoClients(s.hub);
    NoClients(Step(s, Outside(j)).hub);
  }

  // ---- Calls and their senders ----

  /** What kind of method is where. */
  predicate Fits(t: Task, now: nat) {
    match t.pc
    case Drawn(stamp) => t.op.Registering? || (t.op.Reaping? && stamp <= now)
    case InClients(stamp) =>
      t.op.Registering? || t.op.Unregistering? || (t.op.Reaping? && stamp <= now) || t.op.Editing?
    case InPending => t.op.Commanding? || t.op.Acking?
    case _ => true
  }

  ghost predicate AllFit(s: State) {
    forall t: TaskId :: t < |s.tasks| ==> Fits(s.tasks[t], s.hub.now)
  }

  ghost predicate AllKnown(s: State) {
    forall t: TaskId :: t < |s.tasks| ==> CallKnown(s.hub, s.tasks[t].pc)
  }

  predicate Clash(a: Pc, b: Pc) {
    (a.Job().Some? && a.Job() == b.Job()) || (a.Firing? && a == b)
  }

  /** Every call has one command task, and every sender in hand one ack task. */
  ghost predicate OwnCalls(s: State) {
    forall t: TaskId, u: TaskId :: t < u < |s.tasks| ==> !Clash(s.tasks[t].pc, s.tasks[u].pc)
  }

  ghost predicate TablesOk(h: Hub.State) {
    && (forall id :: id in h.pending ==>
          h.pending[id] < |h.calls| && h.calls[h.pending[id]].id == id && h.pending[id] !in h.inHand)
    && (forall n :: n in h.inHand ==> n < |h.calls|)
  }

  ghost predicate NothingReopens(h: Hub.State, h': Hub.State) {
    h'.clients == h.clients && forall k: ClientId :: Hub.Accepts(h', k) ==> Hub.Accepts(h, k)
  }

  /** Everything the other tasks rely on, across a step of one at `own`. */
  ghost predicate SpareOthers(h: Hub.State, h': Hub.State, own: Pc) {
    && |h.calls| <= |h'.calls|
    && (forall m: CallId :: m < |h.calls| && own.Job() != Some(m) ==> h'.calls[m].phase == h.calls[m].phase)
    && (forall m :: m in h.inHand && own != Firing(m) ==> m in h'.inHand)
    && (own.Holds(Clients) || NothingReopens(h, h'))
    && h.now == h'.now
  }

  lemma EditSpares(h: Hub.State, j: Hub.Input)
    requires EditsOne(j) && Hub.Enabled(h, j)
    ensures var h' := Hub.Step(h, j); h'.calls == h.calls && h'.inHand == h.inHand && h'.pending == h.pending && h'.now == h.now
  {
    hide Print;
  }

  lemma StillFailing(h: Hub.State, h': Hub.State, why: Hub.Outcome)
    requires WhyFailed(h, why) && NothingReopens(h, h')
    ensures WhyFailed(h', why)
  {
    assert Hub.Targets(h') == Hub.Targets(h);
  }

  lemma CommandSpares(h: Hub.State, own: Pc)
    requires CallKnown(h, own)
    ensures own.Offering? && !NobodyAccepts(h) ==>
              SpareOthers(h, Hub.Offer(h, own.call), own)
    ensures own.FailingBoth? ==> SpareOthers(h, Hub.FailFast(h, own.call, own.why), own)
  {
    hide Hub.CmdFrame, Hub.Targets, Hub.Accepts, WhyFailed;
  }

  lemma ClosingSpares(h: Hub.State, own: Pc)
    requires CallKnown(h, own)
    ensures own.Awaiting? && Answered(h, own.call) ==> SpareOthers(h, Hub.Resolve(h, own.call), own)
    ensures own.Cleaning? ==> SpareOthers(h, Hub.Finish(h, own.call), own)
    ensures own.Firing? ==> SpareOthers(h, Hub.Deliver(h, own.call), own)
  {
    hide WhyFailed, Hub.Resolution;
  }

  lemma BeginSpares(h: Hub.State, id: string, name: Option<string>, payload: Json, timeout: nat)
    ensures SpareOthers(h, Hub.Begin(h, id, name, payload, timeout), InPending)
  {
    hide WhyFailed, Pc.Holds;
  }

  lemma TakeSpares(h: Hub.State, ack: AckPayload)
    ensures SpareOthers(h, Hub.Take(h, ack), InPending)
  {
    hide WhyFailed, Pc.Holds;
  }

  lemma PendingSpares(s: State, t: TaskId)
    requires t < |s.tasks| && s.tasks[t].pc.InPending?
    ensures SpareOthers(s.hub, UsePending(s, t).hub, s.tasks[t].pc)
  {
    match s.tasks[t].op
    case Commanding(id, name, payload, timeout) =>
      BeginSpares(s.hub, id, name, payload, timeout);
      hide SpareOthers, Hub.Begin;
    case Acking(ack) =>
      TakeSpares(s.hub, ack);
      hide Hub.Take;
    case _ =>
  }

  lemma EditOpSpares(s: State, t: TaskId, mine: nat)
    requires t < |s.tasks| && s.tasks[t].pc == InClients(mine)
    ensures SpareOthers(s.hub, Edit(s, t, mine).hub, s.tasks[t].pc)
  {
    hide WhyFailed, Hub.Step, Hub.Enabled, DeadAt;
    if s.tasks[t].op.Editing? && EditsOne(s.tasks[t].op.edit) && Hub.Enabled(s.hub, s.tasks[t].op.edit) {
      EditSpares(s.hub, s.tasks[t].op.edit);
    }
  }

  lemma RunSpares(s: State, t: TaskId)
    requires Enabled(s, Runs(t))
    ensures SpareOthers(s.hub, Run(s, t).hub, s.tasks[t].pc)
  {
    var own := s.tasks[t].pc;
    if own.InClients? {
      hide SpareOthers, Edit;
      EditOpSpares(s, t, own.mine);
    } else if own.InPending? {
      hide SpareOthers, UsePending;
      PendingSpares(s, t);
    } else if own.Offering? || own.FailingBoth? || own.Awaiting? || own.Cleaning? || own.Firing? {
      CommandSpares(s.hub, own);
      ClosingSpares(s.hub, own);
      hide Hub.Offer, Hub.FailFast, Hub.Resolve, Hub.Finish, Hub.Deliver, Hub.Resolution, Hub.Targets, Hub.Accepts, WhyFailed;
    } else {
      hide WhyFailed;
    }
  }

  // ---- The whole invariant ----

  ghost predicate LocksOk(s: State) {
    && Exclusive(s) && WatchRight(s) && IdsOk(s)
    && AllFit(s) && AllKnown(s) && OwnCalls(s) && TablesOk(s.hub) && FreshIds(s)
  }

  lemma OtherKnown(h: Hub.State, h': Hub.State, own: Pc, other: Pc)
    requires CallKnown(h, other) && SpareOthers(h, h', own) && !Clash(own, other)
    requires !(own.Holds(Clients) && other.Holds(Clients))
    ensures CallKnown(h', other)
  {
    hide WhyFailed, NothingReopens;
    if other.Failing? || other.FailingBoth? { StillFailing(h, h', other.why); }
  }

  lemma PendingKnown(s: State, t: TaskId)
    requires t < |s.tasks| && TablesOk(s.hub)
    ensures CallKnown(UsePending(s, t).hub, UsePending(s, t).tasks[t].pc)
  {
  }

  lemma OwnKnown(s: State, t: TaskId)
    requires Enabled(s, Runs(t)) && TablesOk(s.hub)
    ensures CallKnown(Run(s, t).hub, Run(s, t).tasks[t].pc)
  {
    if s.tasks[t].pc.InPending? {
      hide CallKnown, UsePending, TablesOk;
      PendingKnown(s, t);
    } else if s.tasks[t].pc.InClients? {
      hide Hub.Step, Hub.Enabled, DeadAt, TablesOk;
    } else {
      hide Hub.CmdFrame, Hub.Targets, Hub.Accepts, Hub.Resolution, TablesOk;
    }
  }

  lemma RunKnown(s: State, t: TaskId)
    requires LocksOk(s) && Enabled(s, Runs(t))
    ensures AllKnown(Run(s, t))
  {
    OwnKnown(s, t);
    RunSpares(s, t);
    RunMoves(s, t);
    hide Run, Enabled, CallKnown, SpareOthers, LockMoves, Clash, TablesOk, IdsOk, FreshIds, WatchRight, Fits;
    var s' := Run(s, t);
    forall u: TaskId | u < |s'.tasks| ensures CallKnown(s'.hub, s'.tasks[u].pc) {
      if u != t {
        assert s'.tasks[u] == s.tasks[u] && CallKnown(s.hub, s.tasks[u].pc);
        assert s.tasks[t].pc.Holds(Clients) <==> s.clientsLock == Some(t);
        assert s.tasks[u].pc.Holds(Clients) <==> s.clientsLock == Some(u);
        OtherKnown(s.hub, s'.hub, s.tasks[t].pc, s.tasks[u].pc);
      }
    }
  }

  /** A task takes on a new call or sender only when nobody else has it. */
  lemma NewJob(s: State, t: TaskId)
    requires Enabled(s, Runs(t)) && TablesOk(s.hub)
    ensures var own, next := s.tasks[t].pc, Run(s, t).tasks[t].pc;
            && (next.Job().Some? ==> next.Job() == own.Job() || next.Job() == Some(|s.hub.calls|))
            && (next.Firing? ==> next.call !in s.hub.inHand)
  {
    hide Edit, Hub.Begin, Hub.Take, Hub.Offer, Hub.FailFast, Hub.Resolve, Hub.Finish, Hub.Deliver,
      Hub.Targets, Hub.Accepts, Hub.Resolution, WhyFailed;
    if s.tasks[t].pc.InClients? { EditJob(s, t, s.tasks[t].pc.mine); }
  }

  lemma EditJob(s: State, t: TaskId, mine: nat)
    requires t < |s.tasks|
    ensures Edit(s, t, mine).tasks[t].pc.Edited? || Edit(s, t, mine).tasks[t].pc.Leaving?
  {
  }

  lemma NewClash(h: Hub.State, own: Pc, next: Pc, other: Pc)
    requires CallKnown(h, other) && !Clash(own, other)
    requires next.Job().Some? ==> next.Job() == own.Job() || next.Job() == Some(|h.calls|)
    requires next.Firing? ==> next.call !in h.inHand
    ensures !Clash(next, other)
  {
    hide WhyFailed;
  }

  lemma RunOwn(s: State, t: TaskId)
    requires LocksOk(s) && Enabled(s, Runs(t))
    ensures OwnCalls(Run(s, t))
  {
    RunMoves(s, t);
    NewJob(s, t);
    hide Run, Enabled, CallKnown, LockMoves, Clash, TablesOk, IdsOk, FreshIds, WatchRight, Fits;
    var s' := Run(s, t);
    forall u: TaskId | u < |s.tasks| && u != t
      ensures !Clash(s'.tasks[t].pc, s'.tasks[u].pc) && !Clash(s'.tasks[u].pc, s'.tasks[t].pc)
    {
      assert s'.tasks[u] == s.tasks[u];
      ClashBoth(s.tasks[t].pc, s.tasks[u].pc);
      NewClash(s.hub, s.tasks[t].pc, s'.tasks[t].pc, s.tasks[u].pc);
      ClashBoth(s'.tasks[t].pc, s.tasks[u].pc);
    }
  }

  lemma ClashBoth(a: Pc, b: Pc)
    ensures Clash(a, b) <==> Clash(b, a)
  {
  }

  lemma PendingTables(s: State, t: TaskId)
    requires t < |s.tasks| && TablesOk(s.hub)
    requires s.tasks[t].op.Commanding? ==> !Hub.Started(s.hub, s.tasks[t].op.id)
    ensures TablesOk(UsePending(s, t).hub)
  {
    if s.tasks[t].op.Commanding? { assert s.tasks[t].op.id !in s.hub.pending; }
  }

  lemma OfferTables(h: Hub.State, n: CallId)
    requires TablesOk(h) && n < |h.calls|
    ensures TablesOk(Hub.Offer(h, n))
  {
    HI.OfferToFrame(h, Hub.Targets(h), Hub.CmdFrame(h.calls[n]));
    hide Hub.CmdFrame, Hub.Targets, Hub.Accepts, Hub.OfferTo, Hub.AnyReady;
  }

  lemma EditTables(s: State, t: TaskId, mine: nat)
    requires t < |s.tasks| && TablesOk(s.hub)
    ensures TablesOk(Edit(s, t, mine).hub)
  {
    hide Hub.Step, Hub.Enabled, DeadAt;
    if s.tasks[t].op.Editing? && EditsOne(s.tasks[t].op.edit) && Hub.Enabled(s.hub, s.tasks[t].op.edit) {
      EditSpares(s.hub, s.tasks[t].op.edit);
    }
  }

  lemma RunTables(s: State, t: TaskId)
    requires TablesOk(s.hub) && FreshIds(s) && Enabled(s, Runs(t))
    ensures TablesOk(Run(s, t).hub)
  {
    hide Edit, UsePending, Hub.Offer, Hub.Targets, Hub.Accepts, WhyFailed, Hub.Resolution;
    match s.tasks[t].pc
    case InClients(mine) => EditTables(s, t, mine);
    case InPending => PendingTables(s, t);
    case Offering(n) => OfferTables(s.hub, n);
    case _ =>
  }

  /** Only a command that begins adds its id to the records. */
  lemma RunStarts(s: State, t: TaskId, id: string)
    requires Enabled(s, Runs(t)) && !Hub.Started(s.hub, id)
    requires s.tasks[t].op.Commanding? && s.tasks[t].pc.InPending? ==> s.tasks[t].op.id != id
    ensures !Hub.Started(Run(s, t).hub, id)
  {
    hide Edit, Hub.Offer, Hub.Targets, Hub.Accepts, WhyFailed, Hub.Resolution;
    match s.tasks[t].pc
    case InClients(mine) => EditStarts(s, t, mine);
    case Offering(n) => OfferStarts(s.hub, n);
    case _ =>
  }

  lemma EditStarts(s: State, t: TaskId, mine: nat)
    requires t < |s.tasks|
    ensures Edit(s, t, mine).hub.calls == s.hub.calls
  {
    hide Hub.Step, Hub.Enabled, DeadAt;
    if s.tasks[t].op.Editing? && EditsOne(s.tasks[t].op.edit) && Hub.Enabled(s.hub, s.tasks[t].op.edit) {
      EditSpares(s.hub, s.tasks[t].op.edit);
    }
  }

  lemma OfferStarts(h: Hub.State, n: CallId)
    requires n < |h.calls|
    ensures var h' := Hub.Offer(h, n);
            |h'.calls| == |h.calls| && forall m: CallId :: m < |h.calls| ==> h'.calls[m].id == h.calls[m].id
  {
    hide Hub.CmdFrame, Hub.Targets, Hub.Accepts, Hub.AnyReady;
    assert Hub.Offer(h, n).calls == h.calls[n := Hub.Offer(h, n).calls[n]];
  }

  lemma RunFresh(s: State, t: TaskId)
    requires FreshIds(s) && Enabled(s, Runs(t))
    ensures FreshIds(Run(s, t))
  {
    RunMoves(s, t);
    var s' := Run(s, t);
    if s'.tasks[t].pc.InPending? { LaterPc(s, t); }
    assert !s'.tasks[t].pc.Start?;
    hide Run, LockMoves, Hub.Started;
    forall u: TaskId | u < |s'.tasks| && s'.tasks[u].op.Commanding? && (s'.tasks[u].pc.Start? || s'.tasks[u].pc.InPending?)
      ensures !Hub.Started(s'.hub, s'.tasks[u].op.id)
    {
      assert s'.tasks[u].op == s.tasks[u].op;
      RunStarts(s, t, s'.tasks[u].op.id);
    }
  }

  lemma LaterPc(s: State, t: TaskId)
    requires Enabled(s, Runs(t)) && Run(s, t).tasks[t].pc.InPending?
    ensures s.tasks[t].pc.Start?
  {
    hide Hub.Begin, Hub.Take, Hub.Offer, Hub.FailFast, Hub.Resolve, Hub.Finish, Hub.Deliver, Hub.Step, Hub.Enabled,
      Hub.Targets, Hub.Accepts, Hub.Resolution, DeadAt, WhyFailed;
  }

  lemma RunFits(s: State, t: TaskId)
    requires AllFit(s) && Enabled(s, Runs(t))
    ensures AllFit(Run(s, t))
  {
    OwnFits(s, t);
    RunSpares(s, t);
    RunMoves(s, t);
    hide Run, Enabled, LockMoves, Fits;
    var s' := Run(s, t);
    forall u: TaskId | u < |s'.tasks| ensures Fits(s'.tasks[u], s'.hub.now) {
      if u != t { assert s'.tasks[u] == s.tasks[u] && Fits(s.tasks[u], s.hub.now); }
    }
  }

  lemma OwnFits(s: State, t: TaskId)
    requires Enabled(s, Runs(t)) && Fits(s.tasks[t], s.hub.now)
    ensures Fits(Run(s, t).tasks[t], s.hub.now)
  {
    hide Hub.Begin, Hub.Take, Hub.Offer, Hub.FailFast, Hub.Resolve, Hub.Finish, Hub.Deliver, Hub.Step, Hub.Enabled,
      Hub.Targets, Hub.Accepts, Hub.Resolution, DeadAt, WhyFailed;
  }

  lemma OutsideOk(s: State, j: Hub.Input)
    requires LocksOk(s) && Lockless(j) && Hub.Enabled(s.hub, j)
    ensures LocksOk(Step(s, Outside(j)))
  {
    OutsideKeeps(s, j);
    var s' := Step(s, Outside(j));
    LocklessSpares(s.hub, j);
    hide Hub.Step, Hub.Enabled, WatchRight, IdsOk, CallKnown, NothingReopens;
    forall t: TaskId | t < |s'.tasks| ensures CallKnown(s'.hub, s'.tasks[t].pc) && Fits(s'.tasks[t], s'.hub.now) {
      assert CallKnown(s.hub, s.tasks[t].pc) && Fits(s.tasks[t], s.hub.now);
      LocklessKnown(s.hub, s'.hub, s.tasks[t].pc);
    }
  }

  lemma LocklessSpares(h: Hub.State, j: Hub.Input)
    requires Lockless(j) && Hub.Enabled(h, j)
    ensures var h' := Hub.Step(h, j);
            h'.calls == h.calls && h'.inHand == h.inHand && h'.pending == h.pending && h.now <= h'.now && NothingReopens(h, h')
  {
  }

  lemma LocklessKnown(h: Hub.State, h': Hub.State, pc: Pc)
    requires CallKnown(h, pc) && h'.calls == h.calls && h'.inHand == h.inHand && NothingReopens(h, h')
    ensures CallKnown(h', pc)
  {
    hide WhyFailed, NothingReopens;
    if pc.Failing? || pc.FailingBoth? { StillFailing(h, h', pc.why); }
  }

  lemma StepOk(s: State, i: Input)
    requires LocksOk(s) && Enabled(s, i)
    ensures LocksOk(Step(s, i))
  {
    match i
    case Outside(j) => OutsideOk(s, j);
    case Runs(t) =>
      RunMoves(s, t);
      MovesExclusive(s, Run(s, t), t);
      RunWatch(s, t);
      RunIds(s, t);
      RunFits(s, t);
      RunKnown(s, t);
      RunOwn(s, t);
      RunTables(s, t);
      RunFresh(s, t);
      hide Run, Exclusive, WatchRight, IdsOk, AllFit, AllKnown, OwnCalls, TablesOk, FreshIds, TaskMoves;
  }

  // ---- Results ----

  lemma InitialOk(s: State)
    requires Initial(s)
    ensures LocksOk(s)
  {
    assert forall t: TaskId :: t < |s.tasks| ==> Reserved(s.tasks[t]) == None;
  }

  lemma {:induction false} RunOk(run: seq<State>, inputs: seq<Input>, k: nat)
    requires IsRun(run, inputs) && k < |run|
    ensures LocksOk(run[k])
  {
    hide LocksOk, Enabled, Step, Initial;
    if k == 0 {
      InitialOk(run[0]);
    } else {
      RunOk(run, inputs, k - 1);
      StepOk(run[k - 1], inputs[k - 1]);
    }
  }

  /** Whenever the clients lock is free, the watch value says whether a client is connected. */
  lemma WatchWhenFree(run: seq<State>, inputs: seq<Input>, k: nat)
    requires IsRun(run, inputs) && k < |run| && run[k].clientsLock.None?
    ensures run[k].hub.watch <==> run[k].hub.clients != map[]
  {
    RunOk(run, inputs, k);
    hide IsRun;
    forall t: TaskId | t < |run[k].tasks| ensures !run[k].tasks[t].pc.Edited? {
      assert !run[k].tasks[t].pc.Holds(Clients);
    }
  }

  /**
   * With any number of concurrent calls: if no task can take a step, both locks are free, and every
   * unfinished task is a command waiting for its ack or its deadline.
   */
  lemma NoDeadlock(run: seq<State>, inputs: seq<Input>, k: nat)
    requires IsRun(run, inputs) && k < |run|
    requires forall t: TaskId :: t < |run[k].tasks| ==> !Enabled(run[k], Runs(t))
    ensures run[k].clientsLock.None? && run[k].pendingLock.None?
    ensures forall t: TaskId :: t < |run[k].tasks| ==>
              || run[k].tasks[t].pc.Done?
              || (run[k].tasks[t].pc.Awaiting? && !Answered(run[k].hub, run[k].tasks[t].pc.call))
  {
    RunOk(run, inputs, k);
    hide IsRun;
    StuckFree(run[k]);
  }

  /** The lock order: whoever holds `pending` can go on, and whoever holds `clients` waits at most for it. */
  lemma HolderGoesOn(s: State, l: Lock, t: TaskId)
    requires Exclusive(s) && AllKnown(s) && t < |s.tasks| && s.tasks[t].pc.Holds(l)
    requires l.Clients? ==> s.pendingLock.None?
    ensures Enabled(s, Runs(t))
  {
    hide CallKnown;
    assert CallKnown(s.hub, s.tasks[t].pc);
  }

  lemma StuckFree(s: State)
    requires Exclusive(s) && AllKnown(s) && forall t: TaskId :: t < |s.tasks| ==> !Enabled(s, Runs(t))
    ensures s.clientsLock.None? && s.pendingLock.None?
    ensures forall t: TaskId :: t < |s.tasks| ==>
              s.tasks[t].pc.Done? || (s.tasks[t].pc.Awaiting? && !Answered(s.hub, s.tasks[t].pc.call))
  {
    hide CallKnown;
    if s.pendingLock.Some? { HolderGoesOn(s, Pending, s.pendingLock.value); }
    if s.clientsLock.Some? { HolderGoesOn(s, Clients, s.clientsLock.value); }
    forall t: TaskId | t < |s.tasks|
      ensures s.tasks[t].pc.Done? || (s.tasks[t].pc.Awaiting? && !Answered(s.hub, s.tasks[t].pc.call))
    {
      assert !Enabled(s, Runs(t)) && CallKnown(s.hub, s.tasks[t].pc);
    }
  }

  // ---- Every call ends ----

  function Work(tasks: seq<Task>): nat {
    if tasks == [] then 0 else Work(tasks[..|tasks| - 1]) + tasks[|tasks| - 1].pc.Rank()
  }

  lemma {:induction false} LessWork(tasks: seq<Task>, t: TaskId, task: Task)
    requires t < |tasks| && task.pc.Rank() < tasks[t].pc.Rank()
    ensures Work(tasks[t := task]) < Work(tasks)
  {
    hide Pc.Rank;
    var n := |tasks| - 1;
    if t == n {
      assert tasks[t := task][..n] == tasks[..n];
    } else {
      assert tasks[t := task][..n] == tasks[..n][t := task];
      LessWork(tasks[..n], t, task);
    }
  }

  function Steps(inputs: seq<Input>): nat {
    if inputs == [] then 0 else Steps(inputs[..|inputs| - 1]) + (if inputs[|inputs| - 1].Runs? then 1 else 0)
  }

  lemma StepWork(s: State, i: Input)
    requires Enabled(s, i)
    ensures Work(Step(s, i).tasks) + (if i.Runs? then 1 else 0) <= Work(s.tasks)
  {
    if i.Runs? {
      RunMoves(s, i.task);
      hide LockMoves, Enabled, Run, Pc.Rank;
      LessWork(s.tasks, i.task, Step(s, i).tasks[i.task]);
    }
  }

  lemma {:induction false} StartWork(tasks: seq<Task>)
    requires forall t: TaskId :: t < |tasks| ==> tasks[t].pc.Start?
    ensures Work(tasks) == 10 * |tasks|
  {
    if tasks != [] { StartWork(tasks[..|tasks| - 1]); }
  }

  /** In any run N calls take at most ten N steps between them, so no call goes round forever. */
  lemma {:induction false} BoundedSteps(run: seq<State>, inputs: seq<Input>, k: nat)
    requires IsRun(run, inputs) && k < |run|
    ensures Steps(inputs[..k]) + Work(run[k].tasks) <= 10 * |run[0].tasks|
  {
    hide Work, Enabled, Step, FreshIds;
    if k == 0 {
      StartWork(run[0].tasks);
      assert inputs[..0] == [];
    } else {
      BoundedSteps(run, inputs, k - 1);
      StepWork(run[k - 1], inputs[k - 1]);
      assert inputs[..k][..k - 1] == inputs[..k - 1];
    }
  }

  // ---- Sections are atomic ----

  /** The hub as others see it: the watch as the lock holder will leave it. */
  function Seen(s: State): Hub.State {
    s.hub.(watch := s.hub.clients != map[])
  }

  /** The one step of the module Hub that a step of a task amounts to, if any. */
  function Commits(s: State, t: TaskId): Option<Hub.Input>
    requires t < |s.tasks|
  {
    match s.tasks[t].pc
    case Start => if s.tasks[t].op.Registering? then Some(Hub.DoDraw) else None
    case InClients(stamp) =>
      (match s.tasks[t].op
       case Registering => Some(Hub.DoInsert(stamp))
       case Unregistering(c) => Some(Hub.DoUnregister(c))
       case Reaping(timeout) => if stamp <= s.hub.now then Some(Hub.DoReap(timeout + (s.hub.now - stamp))) else None
       case Editing(j) => if EditsOne(j) && Hub.Enabled(s.hub, j) then Some(j) else None
       case _ => None)
    case InPending =>
      (match s.tasks[t].op
       case Commanding(id, name, payload, timeout) => Some(Hub.DoBegin(id, name, payload, timeout))
       case Acking(ack) => Some(Hub.DoTake(ack))
       case _ => None)
    case Offering(n) => if NobodyAccepts(s.hub) then None else Some(Hub.DoOffer(n))
    case FailingBoth(n, _) => Some(Hub.DoOffer(n))
    case Awaiting(n) => Some(Hub.DoResolve(n))
    case Cleaning(n) => Some(Hub.DoFinish(n))
    case Firing(n) => Some(Hub.DoDeliver(n))
    case _ => None
  }

  lemma DeadLater(h: Hub.State, stamp: nat, timeout: nat)
    requires stamp <= h.now
    ensures DeadAt(h, stamp, timeout) == Hub.Dead(h, timeout + (h.now - stamp))
  {
  }

  lemma EditSeen(h: Hub.State, j: Hub.Input)
    requires EditsOne(j) && Hub.Enabled(h, j)
    ensures var g := h.(watch := h.clients != map[]);
            Hub.Enabled(g, j) && Hub.Step(g, j) == Hub.Step(h, j).(watch := Hub.Step(h, j).clients != map[])
  {
    EditPresence(h, j);
    NoClients(h);
    NoClients(Hub.Step(h, j));
    hide Print, SamePresence;
  }

  lemma OfferSeen(h: Hub.State, n: CallId)
    requires n < |h.calls|
    ensures var g := h.(watch := h.clients != map[]);
            Hub.Offer(g, n) == Hub.Offer(h, n).(watch := Hub.Offer(h, n).clients != map[])
  {
    assert Hub.Targets(h.(watch := h.clients != map[])) == Hub.Targets(h);
    hide Hub.CmdFrame, Hub.Targets;
  }

  predicate Amounts(h: Hub.State, h': Hub.State, c: Option<Hub.Input>) {
    match c
    case None => h' == h
    case Some(j) => Hub.Enabled(h, j) && h' == Hub.Step(h, j)
  }

  lemma InsertRefines(s: State, t: TaskId, mine: nat)
    requires t < |s.tasks| && s.tasks[t] == Task(Registering, InClients(mine)) && mine in s.hub.drawn
    ensures Amounts(Seen(s), Seen(Edit(s, t, mine)), Commits(s, t))
  {
    assert mine in Edit(s, t, mine).hub.clients;
  }

  lemma RemoveRefines(s: State, t: TaskId, mine: nat)
    requires t < |s.tasks| && s.tasks[t].pc == InClients(mine) && s.tasks[t].op.Unregistering?
    ensures Amounts(Seen(s), Seen(Edit(s, t, mine)), Commits(s, t))
  {
  }

  lemma ReapSeen(h: Hub.State, stamp: nat, timeout: nat)
    requires stamp <= h.now
    ensures var g, dead := h.(watch := h.clients != map[]), DeadAt(h, stamp, timeout);
            Hub.Reap(g, timeout + (h.now - stamp)) == g.(clients := h.clients - dead, watch := h.clients - dead != map[])
  {
    var g, wait := h.(watch := h.clients != map[]), timeout + (h.now - stamp);
    DeadLater(h, stamp, timeout);
    assert Hub.Dead(g, wait) == Hub.Dead(h, wait);
    hide DeadAt, Hub.Dead;
    assert h.clients - {} == h.clients;
  }

  lemma ReapRefines(s: State, t: TaskId, mine: nat)
    requires t < |s.tasks| && s.tasks[t].pc == InClients(mine) && s.tasks[t].op.Reaping? && mine <= s.hub.now
    ensures Amounts(Seen(s), Seen(Edit(s, t, mine)), Commits(s, t))
  {
    hide DeadAt, Hub.Reap;
    ReapSeen(s.hub, mine, s.tasks[t].op.timeout);
    assert s.hub.clients - {} == s.hub.clients;
  }

  lemma EditRefines(s: State, t: TaskId, mine: nat)
    requires t < |s.tasks| && s.tasks[t].pc == InClients(mine) && s.tasks[t].op.Editing?
    ensures Amounts(Seen(s), Seen(Edit(s, t, mine)), Commits(s, t))
  {
    hide Hub.Step, Hub.Enabled;
    var j := s.tasks[t].op.edit;
    if EditsOne(j) && Hub.Enabled(s.hub, j) { EditSeen(s.hub, j); }
  }

  lemma BeginRefines(s: State, t: TaskId)
    requires t < |s.tasks| && s.tasks[t].pc.InPending? && s.tasks[t].op.Commanding?
    requires !Hub.Started(s.hub, s.tasks[t].op.id)
    ensures Amounts(Seen(s), Seen(UsePending(s, t)), Commits(s, t))
  {
  }

  lemma TakeRefines(s: State, t: TaskId)
    requires t < |s.tasks| && s.tasks[t].pc.InPending? && s.tasks[t].op.Acking?
    ensures Amounts(Seen(s), Seen(UsePending(s, t)), Commits(s, t))
  {
  }

  lemma OfferRefines(s: State, t: TaskId)
    requires Enabled(s, Runs(t)) && (s.tasks[t].pc.Offering? || s.tasks[t].pc.FailingBoth?)
    ensures Amounts(Seen(s), Seen(Run(s, t)), Commits(s, t))
  {
    hide Hub.Offer, Hub.Targets, Hub.Accepts, Hub.FailFast, NobodyAccepts;
    OfferSeen(s.hub, s.tasks[t].pc.call);
    if s.tasks[t].pc.FailingBoth? { FailSeen(s.hub, s.tasks[t].pc.call, s.tasks[t].pc.why); }
  }

  lemma ClosingRefines(s: State, t: TaskId)
    requires Enabled(s, Runs(t)) && (s.tasks[t].pc.Awaiting? || s.tasks[t].pc.Cleaning?)
    ensures Amounts(Seen(s), Seen(Run(s, t)), Commits(s, t))
  {
    hide WhyFailed, NobodyAccepts;
  }

  lemma FiringRefines(s: State, t: TaskId)
    requires Enabled(s, Runs(t)) && s.tasks[t].pc.Firing?
    ensures Amounts(Seen(s), Seen(Run(s, t)), Commits(s, t))
  {
    hide Hub.Resolution, WhyFailed, NobodyAccepts;
  }

  /**
   * Seen from outside the locks, every step of a task changes nothing or is exactly one step of the
   * module Hub.
   */
  lemma RunRefines(s: State, t: TaskId)
    requires LocksOk(s) && Enabled(s, Runs(t))
    ensures Amounts(Seen(s), Seen(Run(s, t)), Commits(s, t))
  {
    assert Fits(s.tasks[t], s.hub.now) && (Reserved(s.tasks[t]).Some? ==> Reserved(s.tasks[t]).value in s.hub.drawn);
    assert s.tasks[t].pc.InPending? && s.tasks[t].op.Commanding? ==> !Hub.Started(s.hub, s.tasks[t].op.id);
    hide LocksOk;
    if s.tasks[t].pc.InClients? {
      SectionRefines(s, t, s.tasks[t].pc.mine);
      hide Amounts, Edit, Seen, Commits;
    } else if s.tasks[t].pc.InPending? {
      hide Amounts, UsePending, Seen, Commits;
      if s.tasks[t].op.Commanding? { BeginRefines(s, t); } else { TakeRefines(s, t); }
    } else if s.tasks[t].pc.Offering? || s.tasks[t].pc.FailingBoth? {
      hide Amounts, Run, Seen, Commits;
      OfferRefines(s, t);
    } else if s.tasks[t].pc.Awaiting? || s.tasks[t].pc.Cleaning? {
      hide Amounts, Run, Seen, Commits;
      ClosingRefines(s, t);
    } else if s.tasks[t].pc.Firing? {
      hide Amounts, Run, Seen, Commits;
      FiringRefines(s, t);
    } else {
      hide Amounts, Run, Seen, Commits;
      MovingRefines(s, t);
    }
  }

  lemma SectionRefines(s: State, t: TaskId, mine: nat)
    requires t < |s.tasks| && s.tasks[t].pc == InClients(mine) && Fits(s.tasks[t], s.hub.now)
    requires s.tasks[t].op.Registering? ==> mine in s.hub.drawn
    ensures Amounts(Seen(s), Seen(Edit(s, t, mine)), Commits(s, t))
  {
    hide Amounts, Edit, Seen, Commits;
    match s.tasks[t].op
    case Registering => InsertRefines(s, t, mine);
    case Unregistering(_) => RemoveRefines(s, t, mine);
    case Reaping(_) => ReapRefines(s, t, mine);
    case Editing(_) => EditRefines(s, t, mine);
  }

  /** Drawing an id, taking and releasing locks, and announcing what the table says. */
  lemma MovingRefines(s: State, t: TaskId)
    requires Enabled(s, Runs(t))
    requires var pc := s.tasks[t].pc;
             pc.Start? || pc.Drawn? || pc.Edited? || pc.Leaving? || pc.Stored? || pc.Failing? || pc.Sent? || pc.Resolved?
    ensures Amounts(Seen(s), Seen(Run(s, t)), Commits(s, t))
  {
    hide Hub.Resolution, WhyFailed;
  }

  lemma FailSeen(h: Hub.State, n: CallId, why: Hub.Outcome)
    requires n < |h.calls| && WhyFailed(h, why)
    ensures Hub.FailFast(h, n, why) == Hub.Offer(h, n)
  {
    hide Hub.CmdFrame, Hub.Targets, Hub.Accepts;
  }

  /** Writers and the clock are the same steps in both. */
  lemma OutsideRefines(s: State, j: Hub.Input)
    requires Lockless(j) && Hub.Enabled(s.hub, j)
    ensures Hub.Enabled(Seen(s), j) && Seen(Step(s, Outside(j))) == Hub.Step(Seen(s), j)
  {
    EditPresence(s.hub, j);
    NoClients(s.hub);
    NoClients(Hub.Step(s.hub, j));
  }

  /** While nobody holds the clients lock, the hub is as it is seen. */
  lemma SeenWhenFree(run: seq<State>, inputs: seq<Input>, k: nat)
    requires IsRun(run, inputs) && k < |run| && run[k].clientsLock.None?
    ensures Seen(run[k]) == run[k].hub
  {
    WatchWhenFree(run, inputs, k);
  }

  /** What a step of the run commits in the module Hub, if anything. */
  function Committed(s: State, i: Input): Option<Hub.Input>
    requires i.Runs? ==> i.task < |s.tasks|
  {
    match i
    case Runs(t) => Commits(s, t)
    case Outside(j) => Some(j)
  }

  lemma StepRefines(s: State, i: Input)
    requires LocksOk(s) && Enabled(s, i)
    ensures Amounts(Seen(s), Seen(Step(s, i)), Committed(s, i))
  {
    hide LocksOk, Seen, Commits, Run, Hub.Step, Hub.Enabled;
    match i
    case Runs(t) => RunRefines(s, t); hide Amounts;
    case Outside(j) => OutsideRefines(s, j);
  }

  /** The hub of every state of this run appears, in order, in that run of the module Hub. */
  ghost predicate Refines(run: seq<State>, k: nat, trace: seq<HI.History>, at: seq<nat>)
    requires k < |run|
  {
    && |at| == k + 1
    && (forall i :: 0 <= i <= k ==> at[i] < |trace| && trace[at[i]].hub == Seen(run[i]))
    && (forall i, j :: 0 <= i <= j <= k ==> at[i] <= at[j])
  }

  /**
   * Every run of concurrent calls is, seen from outside the locks, a run of the module Hub: each
   * section takes effect at one moment, and the rest is invisible.
   */
  lemma {:induction false} TraceRefines(run: seq<State>, inputs: seq<Input>, k: nat)
    returns (trace: seq<HI.History>, steps: seq<Hub.Input>, at: seq<nat>)
    requires IsRun(run, inputs) && k < |run|
    ensures HI.IsRun(trace, steps) && Refines(run, k, trace, at) && at[k] == |steps|
  {
    if k == 0 {
      trace, steps, at := [HI.History(Hub.INITIAL, [])], [], [0];
    } else {
      hide LocksOk, Enabled, Step, Seen, Hub.Step, Hub.Enabled, HI.IsRun, Refines, HI.Advance;
      trace, steps, at := TraceRefines(run, inputs, k - 1);
      RunOk(run, inputs, k - 1);
      StepRefines(run[k - 1], inputs[k - 1]);
      AtEnd(run, k - 1, trace, at);
      TraceLength(trace, steps);
      var before := trace;
      var c := Committed(run[k - 1], inputs[k - 1]);
      if c.Some? {
        OneMoreStep(trace, steps, c.value);
        trace, steps := trace + [HI.Advance(trace[|steps|], c.value)], steps + [c.value];
        TraceLength(trace, steps);
      }
      OneMoreState(run, k, before, trace, at, |steps|);
      at := at + [|steps|];
    }
  }

  lemma AtEnd(run: seq<State>, k: nat, trace: seq<HI.History>, at: seq<nat>)
    requires k < |run| && Refines(run, k, trace, at)
    ensures |at| == k + 1 && at[k] < |trace| && trace[at[k]].hub == Seen(run[k])
  {
    hide Seen;
  }

  lemma OneMoreState(run: seq<State>, k: nat, before: seq<HI.History>, trace: seq<HI.History>, at: seq<nat>, end: nat)
    requires 0 < k < |run| && Refines(run, k - 1, before, at) && before <= trace
    requires end < |trace| && trace[end].hub == Seen(run[k]) && at[k - 1] <= end
    ensures Refines(run, k, trace, at + [end])
  {
    hide Seen;
  }

  lemma TraceLength(trace: seq<HI.History>, steps: seq<Hub.Input>)
    requires HI.IsRun(trace, steps)
    ensures |trace| == |steps| + 1
  {
  }

  lemma OneMoreStep(trace: seq<HI.History>, steps: seq<Hub.Input>, j: Hub.Input)
    requires HI.IsRun(trace, steps) && Hub.Enabled(trace[|steps|].hub, j)
    ensures HI.IsRun(trace + [HI.Advance(trace[|steps|], j)], steps + [j])
    ensures HI.Advance(trace[|steps|], j).hub == Hub.Step(trace[|steps|].hub, j)
  {
    hide Hub.Step, Hub.Enabled;
  }

  /** A client removed at any point is never in the table again. */
  lemma RemovedForGood(run: seq<State>, inputs: seq<Input>, i: nat, j: nat, k: nat, id: ClientId)
    requires IsRun(run, inputs) && i < j <= k < |run|
    requires id in run[i].hub.clients && id !in run[j].hub.clients
    ensures id !in run[k].hub.clients
  {
    var trace, steps, at := TraceRefines(run, inputs, k);
    hide IsRun, HI.IsRun;
    assert trace[at[i]].hub.clients == run[i].hub.clients && trace[at[j]].hub.clients == run[j].hub.clients;
    assert trace[at[k]].hub.clients == run[k].hub.clients;
    HI.GoneForGood(trace, steps, at[i], at[j], at[k], id);
  }

  /** A command that waits goes on waiting or ends with its first ack or at its own deadline. */
  lemma WaitingTaskEnds(run: seq<State>, inputs: seq<Input>, j: nat, k: nat, n: CallId) returns (seen: seq<AckPayload>)
    requires IsRun(run, inputs) && j <= k < |run|
    requires n < |run[j].hub.calls| && run[j].hub.calls[n].phase.Waiting?
    ensures n < |run[k].hub.calls| && HI.AckOrDeadline(run[k].hub, n, seen)
    ensures run[k].hub.calls[n].phase.Finished? ==> run[k].hub.calls[n].id !in run[k].hub.pending
  {
    var trace, steps, at := TraceRefines(run, inputs, k);
    hide IsRun, HI.IsRun;
    assert trace[at[j]].hub.calls == run[j].hub.calls && trace[at[k]].hub == Seen(run[k]);
    HI.WaitingCallEnds(trace, steps, at[j], at[k], n);
    HI.WaiterExactness(trace, steps, at[k], n);
    seen := trace[at[k]].seen[n];
  }
}
