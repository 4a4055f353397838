/** What the hub keeps over every run: waiters, the watch value and client ids. */
module HubInvariants {
  import opened Base
  import opened Json
  import opened Wire
  import opened Hub

  /** The hub together with, per call, the acks with its id dispatched since it began. */
  datatype History = History(hub: State, seen: seq<seq<AckPayload>>)

  function Advance(g: History, i: Input): History
    requires Enabled(g.hub, i)
  {
    var seen :=
      match i
      case DoBegin(_, _, _, _) => g.seen + [[]]
      case DoTake(ack) =>
        seq(|g.seen|, n requires 0 <= n < |g.seen| =>
          if n < |g.hub.calls| && g.hub.calls[n].id == ack.id then g.seen[n] + [ack] else g.seen[n])
      case _ => g.seen;
    History(Step(g.hub, i), seen)
  }

  ghost predicate IsRun(run: seq<History>, inputs: seq<Input>) {
    && |run| == |inputs| + 1
    && run[0] == History(INITIAL, [])
    && forall k :: 0 <= k < |inputs| ==> Enabled(run[k].hub, inputs[k]) && run[k + 1] == Advance(run[k], inputs[k])
  }

  // ---- Waiters ----

  predicate Stored(h: State, n: CallId) {
    n < |h.calls| && h.calls[n].id in h.pending && h.pending[h.calls[n].id] == n
  }

  /** Where a call's sender is and what its receiver holds, given the acks seen so far. */
  ghost predicate SenderPlaced(h: State, n: CallId, seen: seq<AckPayload>)
    requires n < |h.calls|
  {
    var c := h.calls[n];
    && !c.slot.Dropped?
    && (c.slot.Filled? ==> seen != [] && c.slot.ack == seen[0] && n !in h.inHand)
    && (n in h.inHand ==> seen != [] && h.inHand[n] == seen[0] && c.slot.Empty?)
    && (!c.phase.Finished? && seen == [] ==> Stored(h, n))
    && (Stored(h, n) ==> seen == [] && !c.phase.Finished?)
    && (c.phase.Receiving() && seen != [] ==> n in h.inHand || c.slot.Filled?)
  }

  /** A call ends with the first ack carrying its id, at its own deadline, or before it was sent. */
  ghost predicate EndedWell(h: State, n: CallId, seen: seq<AckPayload>)
    requires n < |h.calls|
  {
    var c := h.calls[n];
    match c.phase
    case Resolved(o) => EndedWith(h, c, o, seen) && o != NO_GAUGES && o != NOT_ACCEPTED
    case Finished(o) => EndedWith(h, c, o, seen)
    case _ => true
  }

  ghost predicate EndedWith(h: State, c: Call, o: Outcome, seen: seq<AckPayload>) {
    || (seen != [] && c.slot == Filled(seen[0]) && o == OutcomeOf(seen[0]))
    || (c.slot.Empty? && o == TIMED_OUT && c.deadline <= h.now)
    || o == NO_GAUGES
    || o == NOT_ACCEPTED
  }

  ghost predicate WaitersExact(g: History) {
    var h := g.hub;
    && |g.seen| == |h.calls|
    && (forall m: CallId, n: CallId :: m < n < |h.calls| ==> h.calls[m].id != h.calls[n].id)
    && (forall id :: id in h.pending ==> h.pending[id] < |h.calls| && h.calls[h.pending[id]].id == id)
    && (forall n :: n in h.inHand ==> n < |h.calls|)
    && (forall n: CallId :: n < |h.calls| ==> SenderPlaced(h, n, g.seen[n]) && EndedWell(h, n, g.seen[n]))
  }

  /** Steps that touch neither calls nor their senders. */
  predicate Idle(i: Input) {
    match i
    case DoBegin(_, _, _, _) => false
    case DoOffer(_) => false
    case DoResolve(_) => false
    case DoFinish(_) => false
    case DoTake(_) => false
    case DoDeliver(_) => false
    case _ => true
  }

  lemma IdleFrame(h: State, i: Input)
    requires Idle(i) && Enabled(h, i)
    ensures Step(h, i).calls == h.calls && Step(h, i).pending == h.pending && Step(h, i).inHand == h.inHand
    ensures h.now <= Step(h, i).now
  {
    hide Print;
  }

  lemma IdleExact(g: History, i: Input)
    requires WaitersExact(g) && Idle(i) && Enabled(g.hub, i)
    ensures WaitersExact(Advance(g, i))
  {
    hide Step, Enabled;
    IdleFrame(g.hub, i);
    var h, h' := g.hub, Step(g.hub, i);
    forall n: CallId | n < |h'.calls|
      ensures SenderPlaced(h', n, g.seen[n]) && EndedWell(h', n, g.seen[n])
    {
      assert SenderPlaced(h, n, g.seen[n]) && EndedWell(h, n, g.seen[n]);
      assert Stored(h', n) == Stored(h, n);
    }
  }

  lemma BeginOther(h: State, i: Input, n: CallId, seen: seq<AckPayload>)
    requires i.DoBegin? && i.id !in h.pending && n < |h.calls| && h.calls[n].id != i.id
    requires SenderPlaced(h, n, seen) && EndedWell(h, n, seen)
    ensures var h' := Begin(h, i.id, i.cmdName, i.payload, i.timeout);
            n < |h'.calls| && SenderPlaced(h', n, seen) && EndedWell(h', n, seen)
  {
    var h' := Begin(h, i.id, i.cmdName, i.payload, i.timeout);
    assert h'.calls[n] == h.calls[n] && Stored(h', n) == Stored(h, n);
  }

  lemma BeginTables(g: History, i: Input)
    requires WaitersExact(g) && i.DoBegin? && Enabled(g.hub, i)
    ensures var h, h' := g.hub, Step(g.hub, i);
            && i.id !in h.pending && |h'.calls| == |h.calls| + 1 && h'.calls[..|h.calls|] == h.calls
            && h'.calls[|h.calls|] == Call(i.id, i.cmdName, i.payload, i.timeout, 0, Inserted, Empty)
            && h'.pending == h.pending[i.id := |h.calls|] && h'.inHand == h.inHand
    ensures forall n: CallId :: n < |g.hub.calls| ==> g.hub.calls[n].id != i.id
    ensures SenderPlaced(Step(g.hub, i), |g.hub.calls|, []) && EndedWell(Step(g.hub, i), |g.hub.calls|, [])
  {
  }

  lemma BeginExact(g: History, i: Input)
    requires WaitersExact(g) && i.DoBegin? && Enabled(g.hub, i)
    ensures WaitersExact(Advance(g, i))
  {
    BeginTables(g, i);
    hide SenderPlaced, EndedWell, Begin, Started;
    var h, h' := g.hub, Step(g.hub, i);
    forall n: CallId | n < |h.calls|
      ensures SenderPlaced(h', n, g.seen[n]) && EndedWell(h', n, g.seen[n])
    {
      BeginOther(h, i, n, g.seen[n]);
    }
    assert forall n: CallId :: n < |h.calls| ==> h'.calls[n] == h'.calls[..|h.calls|][n];
  }

  /** One call moves on, and its entry may be removed; every other call is where it was. */
  lemma OneCallExact(g: History, h': State, n: CallId)
    requires WaitersExact(g) && n < |g.hub.calls|
    requires |h'.calls| == |g.hub.calls| && h'.calls == g.hub.calls[n := h'.calls[n]]
    requires h'.calls[n].id == g.hub.calls[n].id && h'.inHand == g.hub.inHand
    requires h'.now == g.hub.now
    requires h'.pending == g.hub.pending || h'.pending == g.hub.pending - {g.hub.calls[n].id}
    requires SenderPlaced(h', n, g.seen[n]) && EndedWell(h', n, g.seen[n])
    ensures WaitersExact(History(h', g.seen))
  {
    var h := g.hub;
    forall m: CallId | m < |h'.calls| && m != n
      ensures SenderPlaced(h', m, g.seen[m]) && EndedWell(h', m, g.seen[m])
    {
      assert h'.calls[m] == h.calls[m] && h.calls[m].id != h.calls[n].id;
      assert SenderPlaced(h, m, g.seen[m]) && EndedWell(h, m, g.seen[m]);
      assert Stored(h', m) == Stored(h, m);
    }
  }

  lemma OfferToFrame(h: State, targets: set<ClientId>, msg: Json)
    ensures var h' := OfferTo(h, targets, msg); h' == h.(chans := h'.chans) && h'.chans.Keys == h.chans.Keys
  {
  }

  lemma OfferFrame(h: State, n: CallId)
    requires n < |h.calls| && h.calls[n].phase.Inserted?
    ensures var h' := Offer(h, n);
            && h'.now == h.now && h'.inHand == h.inHand && h'.calls == h.calls[n := h'.calls[n]]
            && (h'.pending == h.pending || h'.pending == h.pending - {h.calls[n].id})
            && h'.calls[n].id == h.calls[n].id && h'.calls[n].slot == h.calls[n].slot
            && (h'.calls[n].phase.Waiting? || (h'.calls[n].phase in {Finished(NO_GAUGES), Finished(NOT_ACCEPTED)}
                                              && h'.pending == h.pending - {h.calls[n].id}))
            && (h'.calls[n].phase.Waiting? ==> h'.pending == h.pending)
  {
    OfferToFrame(h, Targets(h), CmdFrame(h.calls[n]));
    hide CmdFrame, Targets, Accepts, OfferTo, AnyReady;
  }

  lemma OfferExact(g: History, i: Input)
    requires WaitersExact(g) && i.DoOffer? && Enabled(g.hub, i)
    ensures WaitersExact(Advance(g, i))
  {
    hide Print, CmdFrame, Targets, Accepts, OfferTo;
    var h, h', n := g.hub, Step(g.hub, i), i.call;
    OfferFrame(h, n);
    hide Offer;
    assert SenderPlaced(h, n, g.seen[n]) && EndedWell(h, n, g.seen[n]);
    OneCallExact(g, h', n);
  }

  lemma EndExact(g: History, i: Input)
    requires WaitersExact(g) && (i.DoResolve? || i.DoFinish?) && Enabled(g.hub, i)
    ensures WaitersExact(Advance(g, i))
  {
    var h, h', n := g.hub, Step(g.hub, i), i.call;
    assert SenderPlaced(h, n, g.seen[n]) && EndedWell(h, n, g.seen[n]);
    OneCallExact(g, h', n);
  }

  lemma TakeExact(g: History, i: Input)
    requires WaitersExact(g) && i.DoTake? && Enabled(g.hub, i)
    ensures WaitersExact(Advance(g, i))
  {
    var h, g' := g.hub, Advance(g, i);
    var h' := g'.hub;
    forall n: CallId | n < |h'.calls|
      ensures SenderPlaced(h', n, g'.seen[n]) && EndedWell(h', n, g'.seen[n])
    {
      assert SenderPlaced(h, n, g.seen[n]) && EndedWell(h, n, g.seen[n]);
      if h.calls[n].id == i.ack.id {
        assert g.seen[n] != [] ==> g'.seen[n][0] == g.seen[n][0];
        assert i.ack.id in h.pending ==> h.pending[i.ack.id] == n;
      } else {
        assert Stored(h', n) == Stored(h, n);
        assert n in h'.inHand <==> n in h.inHand;
      }
    }
  }

  lemma DeliverSelf(h: State, i: Input, seen: seq<AckPayload>)
    requires i.DoDeliver? && Enabled(h, i) && i.call < |h.calls|
    requires SenderPlaced(h, i.call, seen) && EndedWell(h, i.call, seen)
    ensures |Step(h, i).calls| == |h.calls|
    ensures SenderPlaced(Step(h, i), i.call, seen) && EndedWell(Step(h, i), i.call, seen)
  {
    assert Stored(Step(h, i), i.call) == Stored(h, i.call);
  }

  lemma DeliverFrame(h: State, i: Input, m: CallId)
    requires i.DoDeliver? && Enabled(h, i) && m < |h.calls| && m != i.call
    ensures var h' := Step(h, i);
            |h'.calls| == |h.calls| && h'.calls[m] == h.calls[m] && h'.pending == h.pending && h'.now == h.now
            && (m in h'.inHand <==> m in h.inHand) && (m in h.inHand ==> h'.inHand[m] == h.inHand[m])
  {
  }

  lemma DeliverOther(h: State, i: Input, m: CallId, seen: seq<AckPayload>)
    requires i.DoDeliver? && Enabled(h, i) && m < |h.calls| && SenderPlaced(h, m, seen) && EndedWell(h, m, seen)
    ensures |Step(h, i).calls| == |h.calls|
    ensures SenderPlaced(Step(h, i), m, seen) && EndedWell(Step(h, i), m, seen)
  {
    if m == i.call {
      hide SenderPlaced, EndedWell, Step, Enabled;
      DeliverSelf(h, i, seen);
    } else {
      DeliverFrame(h, i, m);
      hide Step, Enabled;
      assert Stored(Step(h, i), m) == Stored(h, m);
    }
  }

  lemma DeliverExact(g: History, i: Input)
    requires WaitersExact(g) && i.DoDeliver? && Enabled(g.hub, i)
    ensures WaitersExact(Advance(g, i))
  {
    hide SenderPlaced, EndedWell;
    var h, h' := g.hub, Step(g.hub, i);
    assert h.calls != [] ==> forall m: CallId :: m < |h.calls| ==> h'.calls[m].id == h.calls[m].id;
    forall m: CallId | m < |h'.calls|
      ensures SenderPlaced(h', m, g.seen[m]) && EndedWell(h', m, g.seen[m])
    {
      DeliverOther(h, i, m, g.seen[m]);
    }
  }

  lemma StepExact(g: History, i: Input)
    requires WaitersExact(g) && Enabled(g.hub, i)
    ensures WaitersExact(Advance(g, i))
  {
    hide WaitersExact, Advance, Enabled;
    if Idle(i) { IdleExact(g, i); }
    if i.DoBegin? { BeginExact(g, i); }
    if i.DoOffer? { OfferExact(g, i); }
    if i.DoResolve? || i.DoFinish? { EndExact(g, i); }
    if i.DoTake? { TakeExact(g, i); }
    if i.DoDeliver? { DeliverExact(g, i); }
  }

  lemma {:induction false} RunExact(run: seq<History>, inputs: seq<Input>, k: nat)
    requires IsRun(run, inputs) && k < |run|
    ensures WaitersExact(run[k])
  {
    if k > 0 {
      RunExact(run, inputs, k - 1);
      hide WaitersExact, Advance, Enabled;
      StepExact(run[k - 1], inputs[k - 1]);
    }
  }

  /** The call waits for its ack, or has ended with its first ack or at its own deadline. */
  ghost predicate AckOrDeadline(h: State, n: CallId, seen: seq<AckPayload>)
    requires n < |h.calls|
  {
    var c := h.calls[n];
    match c.phase
    case Inserted => false
    case Waiting => true
    case Resolved(o) => EndedBy(h, c, o, seen)
    case Finished(o) => EndedBy(h, c, o, seen)
  }

  ghost predicate EndedBy(h: State, c: Call, o: Outcome, seen: seq<AckPayload>) {
    || (o == TIMED_OUT && c.slot.Empty? && c.deadline <= h.now)
    || (seen != [] && c.slot == Filled(seen[0]) && o == OutcomeOf(seen[0]))
  }

  lemma IdleEnds(g: History, i: Input, n: CallId)
    requires WaitersExact(g) && Idle(i) && Enabled(g.hub, i) && n < |g.hub.calls| && AckOrDeadline(g.hub, n, g.seen[n])
    ensures |Advance(g, i).seen| == |Advance(g, i).hub.calls| == |g.hub.calls|
    ensures AckOrDeadline(Advance(g, i).hub, n, Advance(g, i).seen[n])
  {
    hide Step, Enabled, SenderPlaced, EndedWell;
    IdleFrame(g.hub, i);
  }

  lemma StartEnds(g: History, i: Input, n: CallId)
    requires WaitersExact(g) && (i.DoBegin? || i.DoOffer?) && Enabled(g.hub, i)
    requires n < |g.hub.calls| && AckOrDeadline(g.hub, n, g.seen[n])
    ensures |Advance(g, i).seen| == |Advance(g, i).hub.calls| && |g.hub.calls| <= |Advance(g, i).hub.calls|
    ensures AckOrDeadline(Advance(g, i).hub, n, Advance(g, i).seen[n])
  {
    if i.DoOffer? {
      hide SenderPlaced, EndedWell;
      OfferFrame(g.hub, i.call);
      hide Offer;
    } else {
      BeginTables(g, i);
      hide SenderPlaced, EndedWell, Begin, Started;
      var h' := Step(g.hub, i);
      assert h'.calls[n] == h'.calls[..|g.hub.calls|][n];
    }
  }

  lemma ResolveEnds(g: History, i: Input, n: CallId)
    requires WaitersExact(g) && (i.DoResolve? || i.DoFinish?) && Enabled(g.hub, i)
    requires n < |g.hub.calls| && AckOrDeadline(g.hub, n, g.seen[n])
    ensures |Advance(g, i).seen| == |Advance(g, i).hub.calls| == |g.hub.calls|
    ensures AckOrDeadline(Advance(g, i).hub, n, Advance(g, i).seen[n])
  {
    assert SenderPlaced(g.hub, n, g.seen[n]);
  }

  lemma TakeEnds(g: History, i: Input, n: CallId)
    requires WaitersExact(g) && i.DoTake? && Enabled(g.hub, i)
    requires n < |g.hub.calls| && AckOrDeadline(g.hub, n, g.seen[n])
    ensures |Advance(g, i).seen| == |Advance(g, i).hub.calls| == |g.hub.calls|
    ensures AckOrDeadline(Advance(g, i).hub, n, Advance(g, i).seen[n])
  {
    hide SenderPlaced, EndedWell;
    if g.seen[n] != [] { assert Advance(g, i).seen[n][0] == g.seen[n][0]; }
  }

  lemma DeliverEnds(g: History, i: Input, n: CallId)
    requires WaitersExact(g) && i.DoDeliver? && Enabled(g.hub, i)
    requires n < |g.hub.calls| && AckOrDeadline(g.hub, n, g.seen[n])
    ensures |Advance(g, i).seen| == |Advance(g, i).hub.calls| == |g.hub.calls|
    ensures AckOrDeadline(Advance(g, i).hub, n, Advance(g, i).seen[n])
  {
    hide SenderPlaced, EndedWell;
    if i.call != n { DeliverFrame(g.hub, i, n); }
  }

  lemma StepEnds(g: History, i: Input, n: CallId)
    requires WaitersExact(g) && Enabled(g.hub, i) && n < |g.hub.calls|
    requires |g.seen| == |g.hub.calls| && AckOrDeadline(g.hub, n, g.seen[n])
    ensures |Advance(g, i).seen| == |Advance(g, i).hub.calls| && |g.hub.calls| <= |Advance(g, i).hub.calls|
    ensures AckOrDeadline(Advance(g, i).hub, n, Advance(g, i).seen[n])
  {
    hide WaitersExact, Advance, Enabled, AckOrDeadline;
    if Idle(i) { IdleEnds(g, i, n); }
    if i.DoBegin? || i.DoOffer? { StartEnds(g, i, n); }
    if i.DoResolve? || i.DoFinish? { ResolveEnds(g, i, n); }
    if i.DoTake? { TakeEnds(g, i, n); }
    if i.DoDeliver? { DeliverEnds(g, i, n); }
  }

  /**
   * Once a command waits for its ack, in whatever state of a run, it can only go on waiting or end
   * with the first ack carrying its id, or at its own deadline with nothing received.
   */
  lemma {:induction false} WaitingCallEnds(run: seq<History>, inputs: seq<Input>, j: nat, k: nat, n: CallId)
    requires IsRun(run, inputs) && j <= k < |run|
    requires n < |run[j].hub.calls| && run[j].hub.calls[n].phase.Waiting?
    ensures n < |run[k].hub.calls| && |run[k].seen| == |run[k].hub.calls|
    ensures AckOrDeadline(run[k].hub, n, run[k].seen[n])
    decreases k
  {
    hide WaitersExact, AckOrDeadline, Advance, Enabled;
    RunExact(run, inputs, k);
    if k > j {
      WaitingCallEnds(run, inputs, j, k - 1, n);
      RunExact(run, inputs, k - 1);
      StepEnds(run[k - 1], inputs[k - 1], n);
    } else {
      WaitsNow(run[k], n);
    }
  }

  lemma WaitsNow(g: History, n: CallId)
    requires WaitersExact(g) && n < |g.hub.calls| && g.hub.calls[n].phase.Waiting?
    ensures |g.seen| == |g.hub.calls| && AckOrDeadline(g.hub, n, g.seen[n])
  {
    hide SenderPlaced, EndedWell;
  }

  ghost predicate Waited(run: seq<History>, k: nat, n: CallId) {
    exists j: nat :: j <= k && j < |run| && n < |run[j].hub.calls| && run[j].hub.calls[n].phase.Waiting?
  }

  predicate FailedFast(p: Phase) {
    p.Finished? && (p.outcome == NO_GAUGES || p.outcome == NOT_ACCEPTED)
  }

  /** A call that is not sent stays so, starts waiting, or fails fast. */
  lemma UnsentStep(h: State, i: Input, n: CallId)
    requires Enabled(h, i) && n < |h.calls| && (h.calls[n].phase.Inserted? || FailedFast(h.calls[n].phase))
    ensures n < |Step(h, i).calls|
    ensures var p := Step(h, i).calls[n].phase; p.Inserted? || p.Waiting? || FailedFast(p)
  {
    if Idle(i) {
      IdleFrame(h, i);
      hide Step, Enabled;
    } else if i.DoOffer? {
      OfferFrame(h, i.call);
      hide Offer;
    } else {
      hide Resolution;
    }
  }

  lemma NewCallUnsent(h: State, i: Input, n: CallId)
    requires Enabled(h, i) && |h.calls| <= n < |Step(h, i).calls|
    ensures Step(h, i).calls[n].phase.Inserted?
  {
    if Idle(i) {
      IdleFrame(h, i);
      hide Step, Enabled;
    } else if i.DoOffer? {
      OfferFrame(h, i.call);
      hide Offer;
    } else {
      hide Resolution;
    }
  }

  lemma {:induction false} NeverWaited(run: seq<History>, inputs: seq<Input>, k: nat, n: CallId)
    requires IsRun(run, inputs) && k < |run| && n < |run[k].hub.calls| && !Waited(run, k, n)
    ensures run[k].hub.calls[n].phase.Inserted? || FailedFast(run[k].hub.calls[n].phase)
  {
    assert !run[k].hub.calls[n].phase.Waiting?;
    if k > 0 {
      hide Enabled, Step, FailedFast;
      if n < |run[k - 1].hub.calls| {
        NotWaitedBefore(run, k, n);
        NeverWaited(run, inputs, k - 1, n);
        UnsentStep(run[k - 1].hub, inputs[k - 1], n);
      } else {
        NewCallUnsent(run[k - 1].hub, inputs[k - 1], n);
      }
    }
  }

  lemma NotWaitedBefore(run: seq<History>, k: nat, n: CallId)
    requires 0 < k < |run| && !Waited(run, k, n)
    ensures !Waited(run, k - 1, n)
  {
  }

  /**
   * In every state of every run: a call still receiving and not yet acked has its sender in the
   * table; every table entry belongs to exactly one unfinished call; a finished call has no entry;
   * and no sender is ever dropped. A call that ever waited ends with the outcome of the first ack
   * dispatched with its id, or at its own deadline having received nothing; one that never waited
   * ends by failing fast.
   */
  lemma WaiterExactness(run: seq<History>, inputs: seq<Input>, k: nat, n: CallId)
    requires IsRun(run, inputs) && k < |run| && n < |run[k].hub.calls|
    ensures |run[k].seen| == |run[k].hub.calls|
    ensures var h, c, seen := run[k].hub, run[k].hub.calls[n], run[k].seen[n];
            && (c.phase.Receiving() && seen == [] ==> c.id in h.pending && h.pending[c.id] == n)
            && (c.id in h.pending ==> h.pending[c.id] == n && !c.phase.Finished? && seen == [])
            && c.slot != Dropped
            && (c.phase.Resolved? || c.phase.Finished? ==>
                  if Waited(run, k, n) then EndedBy(h, c, c.phase.outcome, seen) else FailedFast(c.phase))
  {
    RunExact(run, inputs, k);
    var h, c := run[k].hub, run[k].hub.calls[n];
    if Waited(run, k, n) {
      var j: nat :| j <= k && j < |run| && n < |run[j].hub.calls| && run[j].hub.calls[n].phase.Waiting?;
      WaitingCallEnds(run, inputs, j, k, n);
    } else {
      NeverWaited(run, inputs, k, n);
    }
    hide IsRun, Waited;
    assert SenderPlaced(h, n, run[k].seen[n]) && EndedWell(h, n, run[k].seen[n]);
    assert c.id in h.pending ==> h.pending[c.id] == n;
  }

  /** The deadline arm is taken only at the call's own deadline with nothing received. */
  lemma TimeoutOnlyAtDeadline(h: State, n: CallId)
    requires n < |h.calls| && h.calls[n].phase.Waiting?
    ensures Resolution(h, h.calls[n]) == Some(TIMED_OUT)
       <==> h.calls[n].slot.Empty? && h.calls[n].deadline <= h.now
  {
    if h.calls[n].slot.Filled? { assert OutcomeOf(h.calls[n].slot.ack) != TIMED_OUT; }
  }

  // ---- Dispatch targeting ----

  lemma TargetsMeaning(h: State)
    ensures forall k :: k in Targets(h) <==>
      k in h.clients && (h.clients[k].ready || forall j :: j in h.clients ==> !h.clients[j].ready)
    ensures h.clients != map[] ==> Targets(h) != {}
  {
    if h.clients != map[] {
      var k :| k in h.clients;
      assert AnyReady(h) || k in Targets(h);
    }
  }

  predicate IsTarget(h: State, k: ClientId) {
    k in h.clients && (h.clients[k].ready || forall j :: j in h.clients ==> !h.clients[j].ready)
  }

  lemma OfferedQueues(h: State, targets: set<ClientId>, msg: Json)
    ensures var h' := OfferTo(h, targets, msg);
            && h'.chans.Keys == h.chans.Keys
            && (forall k :: k in h.chans ==>
                  h'.chans[k] == if k in targets && h.chans[k].open then Chan(h.chans[k].queue + [msg], true) else h.chans[k])
            && ((forall k :: k in targets ==> !Accepts(h, k)) ==> h'.chans == h.chans)
  {
  }

  /**
   * The send loop offers the command once to each ready client if any client is ready, otherwise
   * once to each client, and touches no other queue. The call fails at once, with no entry left,
   * exactly when no target accepts.
   */
  lemma DispatchTargets(h: State, n: CallId)
    requires n < |h.calls| && h.calls[n].phase.Inserted?
    requires forall k :: k in h.clients ==> k in h.chans
    ensures var h' := Offer(h, n);
            var c := h'.calls[n];
            && h'.chans.Keys == h.chans.Keys
            && (forall k :: k in h.chans ==>
                  h'.chans[k] == if IsTarget(h, k) && h.chans[k].open
                                 then Chan(h.chans[k].queue + [CmdFrame(h.calls[n])], true) else h.chans[k])
            && (c.phase.Finished? <==> forall k :: IsTarget(h, k) ==> !h.chans[k].open)
            && (c.phase.Finished? ==> FailedFast(c.phase) && c.id !in h'.pending)
            && (!c.phase.Finished? ==> c.phase == Waiting && c.deadline == h.now + c.timeout && h'.pending == h.pending)
  {
    TargetsMeaning(h);
    assert forall k :: k in Targets(h) <==> IsTarget(h, k);
    OfferedQueues(h, Targets(h), CmdFrame(h.calls[n]));
    hide CmdFrame, Targets, AnyReady, OfferTo;
    assert h.clients == map[] ==> forall k :: !IsTarget(h, k);
  }

  // ---- Watch and client ids ----

  ghost predicate ClientsConsistent(h: State) {
    && (h.watch <==> h.clients != map[])
    && (forall k :: k in h.clients ==> Used(h, k) && k in h.chans)
    && (forall k :: k in h.chans ==> Used(h, k))
    && (forall k :: k in h.drawn ==> k < h.nextId)
  }

  lemma ReapClients(h: State, timeout: nat)
    requires ClientsConsistent(h)
    ensures ClientsConsistent(Reap(h, timeout))
  {
    if Dead(h, timeout) == {} {
      assert h.clients - Dead(h, timeout) == h.clients;
    }
  }

  lemma FieldClients(h: State, id: ClientId, c: Client)
    requires ClientsConsistent(h) && id in h.clients
    ensures ClientsConsistent(h.(clients := h.clients[id := c]))
  {
    assert id in h.clients[id := c];
  }

  lemma OfferClients(h: State, n: CallId)
    requires n < |h.calls|
    ensures var h' := Offer(h, n);
            h'.clients == h.clients && h'.nextId == h.nextId && h'.drawn == h.drawn && h'.watch == h.watch
            && h'.chans.Keys == h.chans.Keys && h'.now == h.now
  {
    OfferToFrame(h, Targets(h), CmdFrame(h.calls[n]));
    hide CmdFrame, Targets, Accepts, OfferTo, AnyReady;
  }

  lemma InsertClients(h: State, id: ClientId)
    requires ClientsConsistent(h) && id in h.drawn
    ensures ClientsConsistent(Insert(h, id))
  {
    assert id in Insert(h, id).clients;
  }

  lemma SameClients(h: State, h': State)
    requires ClientsConsistent(h) && h'.watch == h.watch && h'.clients == h.clients && h'.nextId == h.nextId && h'.drawn == h.drawn
    requires h'.chans.Keys == h.chans.Keys
    ensures ClientsConsistent(h')
  {
    assert forall k :: k in h'.chans ==> k in h'.chans.Keys;
  }

  /** Steps that neither insert, remove nor edit a client, nor draw an id. */
  predicate Elsewhere(i: Input) {
    match i
    case DoSendTo(_, _) => true
    case DoEmit(_, _) => true
    case DoBegin(_, _, _, _) => true
    case DoOffer(_) => true
    case DoResolve(_) => true
    case DoFinish(_) => true
    case DoTake(_) => true
    case DoDeliver(_) => true
    case WriterSends(_) => true
    case WriterEnds(_) => true
    case TimePasses(_) => true
    case _ => false
  }

  lemma ElsewhereClients(h: State, i: Input)
    requires Elsewhere(i) && Enabled(h, i)
    ensures var h' := Step(h, i);
            h'.clients == h.clients && h'.nextId == h.nextId && h'.drawn == h.drawn && h'.watch == h.watch
            && h'.chans.Keys == h.chans.Keys && (!i.TimePasses? ==> h'.now == h.now)
  {
    hide Print, Offer, Resolution;
    if i.DoOffer? { OfferClients(h, i.call); }
  }

  lemma DrawClients(h: State)
    requires ClientsConsistent(h)
    ensures ClientsConsistent(Draw(h))
  {
  }

  /** The watch always says whether the table is non-empty. */
  lemma StepClients(h: State, i: Input)
    requires ClientsConsistent(h) && Enabled(h, i)
    ensures ClientsConsistent(Step(h, i))
  {
    if Elsewhere(i) {
      ElsewhereClients(h, i);
      hide ClientsConsistent, Step, Enabled;
      SameClients(h, Step(h, i));
    } else {
      hide ClientsConsistent;
      match i
      case DoDraw => DrawClients(h);
      case DoInsert(id) => InsertClients(h, id);
      case DoUnregister(k) => UnregisterClients(h, k);
      case DoReap(timeout) => ReapClients(h, timeout);
      case DoHello(k, hello) => if k in h.clients { FieldClients(h, k, h.clients[k].(hello := Some(hello))); }
      case DoTouch(k) => if k in h.clients { FieldClients(h, k, h.clients[k].(lastSeen := h.now)); }
      case DoReady(k, ready) => if k in h.clients { FieldClients(h, k, h.clients[k].(ready := ready)); }
    }
  }

  lemma UnregisterClients(h: State, id: ClientId)
    requires ClientsConsistent(h)
    ensures ClientsConsistent(Unregister(h, id))
  {
  }

  /** Used ids stay used, and only the insertion of an unused id adds a client. */
  lemma StepIds(h: State, i: Input, id: ClientId)
    requires Enabled(h, i)
    ensures Used(h, id) ==> Used(Step(h, i), id)
    ensures id in Step(h, i).clients ==> id in h.clients || (i == DoInsert(id) && !Used(h, id))
  {
    if Elsewhere(i) {
      ElsewhereClients(h, i);
      hide Step, Enabled;
    } else {
      hide Dead;
    }
  }

  lemma {:induction false} RunClients(run: seq<History>, inputs: seq<Input>, k: nat)
    requires IsRun(run, inputs) && k < |run|
    ensures ClientsConsistent(run[k].hub)
  {
    if k > 0 {
      RunClients(run, inputs, k - 1);
      hide ClientsConsistent, Enabled, Step;
      StepClients(run[k - 1].hub, inputs[k - 1]);
    }
  }

  lemma {:induction false} StaysUsed(run: seq<History>, inputs: seq<Input>, j: nat, k: nat, id: ClientId)
    requires IsRun(run, inputs) && j <= k < |run| && Used(run[j].hub, id)
    ensures Used(run[k].hub, id)
    ensures id !in run[j].hub.clients ==> id !in run[k].hub.clients
    decreases k - j
  {
    hide Used, Enabled, Step;
    if j < k {
      StaysUsed(run, inputs, j, k - 1, id);
      StepIds(run[k - 1].hub, inputs[k - 1], id);
    }
  }

  /** A client that left the table, by unregistering or by reaping, never comes back. */
  lemma GoneForGood(run: seq<History>, inputs: seq<Input>, i: nat, j: nat, k: nat, id: ClientId)
    requires IsRun(run, inputs) && i < j <= k < |run|
    requires id in run[i].hub.clients && id !in run[j].hub.clients
    ensures id !in run[k].hub.clients
  {
    RunClients(run, inputs, i);
    hide IsRun;
    StaysUsed(run, inputs, i, j, id);
    StaysUsed(run, inputs, j, k, id);
  }
}
