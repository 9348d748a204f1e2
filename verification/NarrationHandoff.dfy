/**
 * Handing narration over from one book to the next.
 *
 * Every replacement request starts the close of the old narration and chains a barrier promise behind
 * the previous barrier, the close and a Chatterbox removal that is pending at that moment. The handoff
 * becomes ready or failed only through the callback of the barrier that is current. Requests, close
 * completions, removals and promise continuations interleave freely.
 */
module NarrationHandoff {
  import opened Wrappers

  datatype Handoff = Ready | Pending | Failed

  // ---------------------------------------------------------------- promises

  /** What the coordinator reports after its close. */
  datatype Snapshot = Snapshot(stopped: bool, retainedUnits: nat, discardedUnits: nat, serviceFailed: bool)

  /** How a close ends; without a coordinator there is nothing to observe. */
  datatype CloseOutcome = NothingToClose | Observed(snapshot: Snapshot) | Threw

  datatype Close = Running | Settled(outcome: CloseOutcome)

  predicate Contained(outcome: CloseOutcome) {
    match outcome
    case NothingToClose => true
    case Threw => false
    case Observed(s) => s.stopped && s.retainedUnits == 0 && s.discardedUnits == 0 && !s.serviceFailed
  }

  /**
   * One barrier promise: the close it waits for, the removal it captured, the value it settled with, and
   * whether its callback has run. It also waits for the barrier before it.
   */
  datatype Barrier = Barrier(
    coordinator: bool, close: Close, removal: Option<nat>, settled: Option<bool>, delivered: bool)

  /** A removal promise settles, with its result, after its final step has cleared the reference to it. */
  datatype Removal = RemovalRunning | RemovalFinished | RemovalSettled(fulfilled: bool)

  // ---------------------------------------------------------------- the protocol on values

  datatype State = State(
    handoff: Handoff, barriers: seq<Barrier>, removals: seq<Removal>, pendingRemoval: Option<nat>)

  const INITIAL := State(Ready, [], [], None)

  datatype Event =
    | Request(coordinator: bool)
    | RequestRemoval(coordinator: bool)
    | CloseSettles(barrier: nat, outcome: CloseOutcome)
    | RemovalFinishes(removal: nat)
    | RemovalSettles(removal: nat, fulfilled: bool)
    | BarrierSettles(barrier: nat)
    | BarrierDelivers(barrier: nat)

  function RequestOf(s: State, coordinator: bool): State {
    if !coordinator && s.pendingRemoval.None? then s
    else s.(handoff := Pending, barriers := s.barriers + [Barrier(coordinator, Running, s.pendingRemoval, None, false)])
  }

  function RequestRemovalOf(s: State, coordinator: bool): State {
    if s.pendingRemoval.Some? then s
    else
      var started := s.(removals := s.removals + [RemovalRunning], pendingRemoval := Some(|s.removals|));
      if coordinator then started else RequestOf(started, false)
  }

  predicate RemovalDone(s: State, removal: Option<nat>) {
    removal.Some? ==> removal.value < |s.removals| && s.removals[removal.value].RemovalSettled?
  }

  /** What the barrier before `i` settled with; the very first barrier follows a resolved promise. */
  function PreviousValue(s: State, i: nat): Option<bool>
    requires i <= |s.barriers|
  {
    if i == 0 then Some(true) else s.barriers[i - 1].settled
  }

  /**
   * The value barrier `i` can settle with now: false as soon as its close rejects, otherwise the
   * conjunction of the previous value and containment once everything it waits for is settled.
   */
  function BarrierValue(s: State, i: nat): Option<bool>
    requires i < |s.barriers|
  {
    var b := s.barriers[i];
    if b.close.Running? then None
    else if b.close.outcome.Threw? then Some(false)
    else if PreviousValue(s, i).Some? && RemovalDone(s, b.removal) then
      Some(PreviousValue(s, i).value && Contained(b.close.outcome))
    else None
  }

  predicate Enabled(s: State, event: Event) {
    match event
    case Request(_) => true
    case RequestRemoval(_) => true
    case CloseSettles(i, outcome) =>
      i < |s.barriers| && s.barriers[i].close.Running? && (s.barriers[i].coordinator <==> !outcome.NothingToClose?)
    case RemovalFinishes(r) => r < |s.removals| && s.removals[r].RemovalRunning?
    case RemovalSettles(r, _) => r < |s.removals| && s.removals[r].RemovalFinished?
    case BarrierSettles(i) => i < |s.barriers| && s.barriers[i].settled.None? && BarrierValue(s, i).Some?
    case BarrierDelivers(i) => i < |s.barriers| && s.barriers[i].settled.Some? && !s.barriers[i].delivered
  }

  function Step(s: State, event: Event): State
    requires Enabled(s, event)
  {
    match event
    case Request(coordinator) => RequestOf(s, coordinator)
    case RequestRemoval(coordinator) => RequestRemovalOf(s, coordinator)
    case CloseSettles(i, outcome) => s.(barriers := s.barriers[i := s.barriers[i].(close := Settled(outcome))])
    case RemovalFinishes(r) =>
      s.(removals := s.removals[r := RemovalFinished],
         pendingRemoval := if s.pendingRemoval == Some(r) then None else s.pendingRemoval)
    case RemovalSettles(r, fulfilled) => s.(removals := s.removals[r := RemovalSettled(fulfilled)])
    case BarrierSettles(i) => s.(barriers := s.barriers[i := s.barriers[i].(settled := BarrierValue(s, i))])
    case BarrierDelivers(i) =>
      s.(barriers := s.barriers[i := s.barriers[i].(delivered := true)],
         handoff :=
           if i != |s.barriers| - 1 then s.handoff
           else if s.barriers[i].settled.value then Ready else Failed)
  }

  /** The state after a run, or none when some event is not enabled. */
  function RunOf(s: State, events: seq<Event>): Option<State>
    decreases |events|
  {
    if events == [] then Some(s)
    else if !Enabled(s, events[0]) then None
    else RunOf(Step(s, events[0]), events[1..])
  }

  // ---------------------------------------------------------------- the invariant

  /** The close of request `i` is contained and the removal it captured is settled. */
  ghost predicate Clear(s: State, i: nat)
    requires i < |s.barriers|
  {
    s.barriers[i].close.Settled? && Contained(s.barriers[i].close.outcome) && RemovalDone(s, s.barriers[i].removal)
  }

  /** The close of request `i` ended without containment, by its snapshot or by an error. */
  ghost predicate Uncontained(s: State, i: nat)
    requires i < |s.barriers|
  {
    s.barriers[i].close.Settled? && !Contained(s.barriers[i].close.outcome)
  }

  ghost predicate ClearUpTo(s: State, i: nat)
    requires i < |s.barriers|
  {
    forall j: nat :: j <= i ==> Clear(s, j)
  }

  ghost predicate UncontainedUpTo(s: State, i: nat)
    requires i < |s.barriers|
  {
    exists j: nat :: j <= i && Uncontained(s, j)
  }

  /** The close and the captured removal of request `i` have settled. */
  ghost predicate Finished(s: State, i: nat)
    requires i < |s.barriers|
  {
    s.barriers[i].close.Settled? && RemovalDone(s, s.barriers[i].removal)
  }

  /** The close of request `i` was rejected. */
  ghost predicate Rejected(s: State, i: nat)
    requires i < |s.barriers|
  {
    s.barriers[i].close.Settled? && s.barriers[i].close.outcome.Threw?
  }

  /**
   * What closes and removals say about the requests up to `i`, whatever promises have settled: a rejected
   * close decides alone, any other request waits for the requests before it.
   */
  ghost function Verdict(s: State, i: nat): Option<bool>
    requires i < |s.barriers|
  {
    if Rejected(s, i) then Some(false)
    else if !Finished(s, i) then None
    else if i == 0 then Some(Contained(s.barriers[i].close.outcome))
    else
      var previous := Verdict(s, i - 1);
      if previous.None? then None else Some(previous.value && Contained(s.barriers[i].close.outcome))
  }

  /** A barrier that settled tells the truth about every request up to its own. */
  ghost predicate Truthful(s: State, i: nat)
    requires i < |s.barriers|
  {
    && (s.barriers[i].settled == Some(true) ==> ClearUpTo(s, i))
    && (s.barriers[i].settled == Some(false) ==> UncontainedUpTo(s, i))
    && (s.barriers[i].settled.Some? ==> s.barriers[i].settled == Verdict(s, i))
    && (s.barriers[i].delivered ==> s.barriers[i].settled.Some?)
  }

  /** The handoff shows what the current barrier delivered, and is pending until then. */
  ghost predicate Shown(s: State) {
    if s.barriers == [] then s.handoff == Ready
    else
      var current := s.barriers[|s.barriers| - 1];
      if !current.delivered then s.handoff == Pending
      else current.settled.Some? && s.handoff == if current.settled.value then Ready else Failed
  }

  ghost predicate Consistent(s: State) {
    Shown(s) && forall i: nat :: i < |s.barriers| ==> Truthful(s, i)
  }

  /** Nothing settled is ever undone: closes, removals and the order of requests only grow. */
  ghost predicate Extends(s: State, t: State) {
    && |s.barriers| <= |t.barriers| && |s.removals| <= |t.removals|
    && (forall i :: 0 <= i < |s.barriers| ==>
          && t.barriers[i].removal == s.barriers[i].removal
          && (s.barriers[i].close.Settled? ==> t.barriers[i].close == s.barriers[i].close))
    && (forall r :: 0 <= r < |s.removals| && s.removals[r].RemovalSettled? ==> t.removals[r] == s.removals[r])
  }

  lemma {:induction false} StepExtends(s: State, event: Event)
    requires Enabled(s, event)
    ensures Extends(s, Step(s, event))
  {
  }

  lemma {:induction false} ExtensionKeepsVerdict(s: State, t: State, i: nat)
    requires Extends(s, t) && i < |s.barriers| && Verdict(s, i).Some?
    ensures Verdict(t, i) == Verdict(s, i)
  {
    if !Rejected(s, i) && i > 0 {
      ExtensionKeepsVerdict(s, t, i - 1);
    }
  }

  lemma {:induction false} ExtensionKeeps(s: State, t: State, i: nat)
    requires Extends(s, t) && i < |s.barriers|
    ensures Clear(s, i) ==> Clear(t, i)
    ensures Uncontained(s, i) ==> Uncontained(t, i)
    ensures ClearUpTo(s, i) ==> ClearUpTo(t, i)
    ensures UncontainedUpTo(s, i) ==> UncontainedUpTo(t, i)
    ensures Verdict(s, i).Some? ==> Verdict(t, i) == Verdict(s, i)
  {
    if Verdict(s, i).Some? {
      ExtensionKeepsVerdict(s, t, i);
    }
    if ClearUpTo(s, i) {
      forall j: nat | j <= i ensures Clear(t, j) {
        assert Clear(s, j);
      }
    }
    if UncontainedUpTo(s, i) {
      var j: nat :| j <= i && Uncontained(s, j);
      assert Uncontained(t, j);
    }
  }

  lemma {:induction false} SettlingIsTruthful(s: State, i: nat)
    requires Consistent(s) && Enabled(s, BarrierSettles(i))
    ensures BarrierValue(s, i).value ==> ClearUpTo(s, i)
    ensures !BarrierValue(s, i).value ==> UncontainedUpTo(s, i)
    ensures BarrierValue(s, i) == Verdict(s, i)
  {
    if i > 0 {
      assert Truthful(s, i - 1);
    }
    if BarrierValue(s, i).value {
      forall j: nat | j <= i ensures Clear(s, j) {
        if j < i {
          assert ClearUpTo(s, i - 1);
        }
      }
    } else if !Uncontained(s, i) {
      var j: nat :| j <= i - 1 && Uncontained(s, j);
      assert j <= i;
    } else {
      assert i <= i;
    }
  }

  lemma {:induction false} StepKeepsConsistent(s: State, event: Event)
    requires Consistent(s) && Enabled(s, event)
    ensures Consistent(Step(s, event))
  {
    var t := Step(s, event);
    StepExtends(s, event);
    forall i: nat | i < |t.barriers|
      ensures Truthful(t, i)
    {
      if i < |s.barriers| {
        assert Truthful(s, i);
        ExtensionKeeps(s, t, i);
        if event == BarrierSettles(i) {
          SettlingIsTruthful(s, i);
        }
      }
    }
    if event.BarrierDelivers? && event.barrier == |s.barriers| - 1 {
      assert Truthful(s, event.barrier);
    }
  }

  /** A removal that starts leaves barriers and handoff as they were. */
  lemma {:induction false} StartedRemovalKeepsConsistent(s: State)
    requires Consistent(s)
    ensures Consistent(s.(removals := s.removals + [RemovalRunning], pendingRemoval := Some(|s.removals|)))
  {
    var t := s.(removals := s.removals + [RemovalRunning], pendingRemoval := Some(|s.removals|));
    forall i: nat | i < |t.barriers|
      ensures Truthful(t, i)
    {
      assert Truthful(s, i);
      ExtensionKeeps(s, t, i);
    }
  }

  lemma {:induction false} RunKeepsConsistent(s: State, events: seq<Event>)
    requires Consistent(s) && RunOf(s, events).Some?
    ensures Consistent(RunOf(s, events).value) && Extends(s, RunOf(s, events).value)
    decreases |events|
  {
    if events != [] {
      StepKeepsConsistent(s, events[0]);
      StepExtends(s, events[0]);
      RunKeepsConsistent(Step(s, events[0]), events[1..]);
    }
  }

  // ---------------------------------------------------------------- safety over whole runs

  lemma {:induction false} ReadyMeansClear(s: State)
    requires Consistent(s) && s.handoff == Ready
    ensures forall i: nat :: i < |s.barriers| ==> Clear(s, i) && !Uncontained(s, i)
  {
    if s.barriers != [] {
      var last: nat := |s.barriers| - 1;
      assert Truthful(s, last);
      forall i: nat | i < |s.barriers| ensures Clear(s, i) && !Uncontained(s, i) {
        assert ClearUpTo(s, last) && i <= last;
      }
    }
  }

  /**
   * Along every interleaving, the handoff is ready only when the close of every request so far is
   * contained and every removal pending at a request has settled.
   */
  lemma {:induction false} ReadyOnlyAfterContainment(events: seq<Event>)
    requires RunOf(INITIAL, events).Some?
    ensures var s := RunOf(INITIAL, events).value;
      s.handoff == Ready ==> forall i: nat :: i < |s.barriers| ==> Clear(s, i)
  {
    RunKeepsConsistent(INITIAL, events);
    var s := RunOf(INITIAL, events).value;
    if s.handoff == Ready {
      ReadyMeansClear(s);
    }
  }

  /**
   * If the close of a request ends up uncontained or rejected, the handoff is not ready at any moment
   * from that request on: not before the close settles, not when it settles, and never afterwards.
   */
  lemma {:induction false} NeverReadyAfterUncontained(before: seq<Event>, between: seq<Event>, i: nat)
    requires RunOf(INITIAL, before).Some?
    requires RunOf(RunOf(INITIAL, before).value, between).Some?
    requires var s := RunOf(INITIAL, before).value;
      var t := RunOf(s, between).value;
      i < |s.barriers| && i < |t.barriers| && Uncontained(t, i)
    ensures RunOf(INITIAL, before).value.handoff != Ready
    ensures RunOf(RunOf(INITIAL, before).value, between).value.handoff != Ready
  {
    var s := RunOf(INITIAL, before).value;
    var t := RunOf(s, between).value;
    RunKeepsConsistent(INITIAL, before);
    RunKeepsConsistent(s, between);
    ExtensionKeeps(s, t, i);
    if s.handoff == Ready {
      ReadyMeansClear(s);
    }
    if t.handoff == Ready {
      ReadyMeansClear(t);
    }
  }

  // ---------------------------------------------------------------- the verdict of closes and removals

  ghost predicate FinishedBetween(s: State, k: nat, i: nat)
    requires i < |s.barriers|
  {
    forall j: nat :: k <= j <= i ==> Finished(s, j)
  }

  /** The last rejected close up to `i` is followed by finished requests only. */
  ghost predicate RejectedThenFinished(s: State, k: nat, i: nat)
    requires i < |s.barriers|
  {
    k <= i && Rejected(s, k) && FinishedBetween(s, k + 1, i)
  }

  ghost predicate RejectionDecides(s: State, i: nat)
    requires i < |s.barriers|
  {
    exists k: nat :: RejectedThenFinished(s, k, i)
  }

  lemma {:induction false} FirstRequest(s: State)
    requires s.barriers != []
    ensures FinishedBetween(s, 0, 0) <==> Finished(s, 0)
    ensures RejectionDecides(s, 0) <==> Rejected(s, 0)
    ensures ClearUpTo(s, 0) <==> Clear(s, 0)
  {
    if Rejected(s, 0) {
      assert RejectedThenFinished(s, 0, 0);
    }
  }

  lemma {:induction false} OneMoreRequest(s: State, i: nat)
    requires 0 < i < |s.barriers|
    ensures FinishedBetween(s, 0, i) <==> FinishedBetween(s, 0, i - 1) && Finished(s, i)
    ensures RejectionDecides(s, i) <==> Rejected(s, i) || (RejectionDecides(s, i - 1) && Finished(s, i))
    ensures ClearUpTo(s, i) <==> ClearUpTo(s, i - 1) && Clear(s, i)
  {
    if Rejected(s, i) {
      assert RejectedThenFinished(s, i, i);
    } else if RejectionDecides(s, i - 1) && Finished(s, i) {
      var k: nat :| RejectedThenFinished(s, k, i - 1);
      assert RejectedThenFinished(s, k, i);
    } else if RejectionDecides(s, i) {
      var k: nat :| RejectedThenFinished(s, k, i);
      assert Finished(s, i);
      assert RejectedThenFinished(s, k, i - 1);
    }
  }

  /**
   * There is a verdict if and only if every request is finished, or some close was rejected and every
   * later request is finished; it is positive if and only if every request is finished and contained.
   */
  lemma {:induction false} VerdictMeans(s: State, i: nat)
    requires i < |s.barriers|
    ensures Verdict(s, i).Some? <==> FinishedBetween(s, 0, i) || RejectionDecides(s, i)
    ensures Verdict(s, i) == Some(true) <==> ClearUpTo(s, i)
  {
    if i == 0 {
      FirstRequest(s);
    } else {
      VerdictMeans(s, i - 1);
      OneMoreRequest(s, i);
    }
  }

  function HandoffOf(verdict: Option<bool>): Handoff {
    if verdict.None? then Pending else if verdict.value then Ready else Failed
  }

  /** What closes and removals say about all requests so far. */
  ghost function Outlook(s: State): Handoff {
    if s.barriers == [] then Ready else HandoffOf(Verdict(s, |s.barriers| - 1))
  }

  /** At every moment of a run the handoff is pending or shows the verdict. */
  lemma {:induction false} HandoffShowsVerdict(s: State)
    requires Consistent(s)
    ensures s.handoff == Pending || s.handoff == Outlook(s)
  {
    if s.barriers != [] {
      var last: nat := |s.barriers| - 1;
      assert Truthful(s, last);
    }
  }

  /**
   * Along every interleaving, when the handoff is not pending, every close so far and every captured
   * removal has settled, or some close was rejected.
   */
  lemma {:induction false} NotPendingMeansFinishedOrRejected(events: seq<Event>)
    requires RunOf(INITIAL, events).Some?
    ensures var s := RunOf(INITIAL, events).value;
      s.handoff != Pending ==>
        || (forall i: nat :: i < |s.barriers| ==> Finished(s, i))
        || RejectionDecides(s, |s.barriers| - 1)
  {
    RunKeepsConsistent(INITIAL, events);
    var s := RunOf(INITIAL, events).value;
    HandoffShowsVerdict(s);
    if s.barriers != [] {
      VerdictMeans(s, |s.barriers| - 1);
    }
  }

  // ---------------------------------------------------------------- progress

  /** The promise continuations: a barrier settles, or its callback runs. */
  predicate IsContinuation(event: Event) {
    event.BarrierSettles? || event.BarrierDelivers?
  }

  /** No continuation is left to run. */
  ghost predicate Still(s: State) {
    forall i: nat :: i < |s.barriers| ==> !Enabled(s, BarrierSettles(i)) && !Enabled(s, BarrierDelivers(i))
  }

  /** Every close and every captured removal has settled. */
  ghost predicate AllSettled(s: State) {
    forall i: nat :: i < |s.barriers| ==> Finished(s, i)
  }

  ghost predicate Quiescent(s: State) {
    AllSettled(s) && Still(s)
  }

  lemma {:induction false} CanSettle(s: State, i: nat)
    requires i < |s.barriers| && Verdict(s, i).Some?
    requires i > 0 && Verdict(s, i - 1).Some? ==> s.barriers[i - 1].settled.Some?
    ensures BarrierValue(s, i).Some?
  {
  }

  lemma {:induction false} StillBarriersSettled(s: State, i: nat)
    requires Still(s) && i < |s.barriers| && Verdict(s, i).Some?
    ensures s.barriers[i].settled.Some? && s.barriers[i].delivered
  {
    if i > 0 && Verdict(s, i - 1).Some? {
      StillBarriersSettled(s, i - 1);
    }
    CanSettle(s, i);
    assert !Enabled(s, BarrierSettles(i)) && !Enabled(s, BarrierDelivers(i));
  }

  /** When no continuation is left, the handoff is exactly the verdict: pending only without one. */
  lemma {:induction false} StillHandoffIsVerdict(s: State)
    requires Consistent(s) && Still(s)
    ensures s.handoff == Outlook(s)
  {
    HandoffShowsVerdict(s);
    if s.barriers != [] && Outlook(s) != Pending {
      StillBarriersSettled(s, |s.barriers| - 1);
    }
  }

  /**
   * When everything has settled the handoff is decided: ready exactly when every close was contained,
   * failed otherwise. It is never stuck in pending.
   */
  lemma {:induction false} QuiescentHandoffIsDecided(s: State)
    requires Consistent(s) && Quiescent(s)
    ensures s.handoff != Pending
    ensures s.handoff == Ready <==> forall i: nat :: i < |s.barriers| ==> Clear(s, i)
    ensures s.handoff == Failed <==> exists i: nat :: i < |s.barriers| && Uncontained(s, i)
  {
    StillHandoffIsVerdict(s);
    if s.barriers != [] {
      var last: nat := |s.barriers| - 1;
      VerdictMeans(s, last);
      assert FinishedBetween(s, 0, last);
      forall i: nat | i < |s.barriers|
        ensures Clear(s, i) <==> !Uncontained(s, i)
      {
        assert Finished(s, i);
      }
    }
  }

  /** How many continuations the first `i` barriers can still run. */
  function Outstanding(s: State, i: nat): nat
    requires i <= |s.barriers|
  {
    if i == 0 then 0
    else
      var b := s.barriers[i - 1];
      Outstanding(s, i - 1) + (if b.settled.None? then 1 else 0) + (if b.delivered then 0 else 1)
  }

  lemma {:induction false} OutstandingAfter(s: State, event: Event, i: nat)
    requires Enabled(s, event) && IsContinuation(event) && i <= |s.barriers|
    ensures Outstanding(Step(s, event), i) == Outstanding(s, i) - if event.barrier < i then 1 else 0
  {
    if i > 0 {
      OutstandingAfter(s, event, i - 1);
    }
  }

  /** The same requests with the same closes and removals. */
  ghost predicate SameFacts(s: State, t: State) {
    && |t.barriers| == |s.barriers| && t.removals == s.removals
    && forall i :: 0 <= i < |s.barriers| ==>
         t.barriers[i].close == s.barriers[i].close && t.barriers[i].removal == s.barriers[i].removal
  }

  /** Continuations use themselves up, and they change neither a close nor a removal. */
  lemma {:induction false} ContinuationsDecrease(s: State, event: Event)
    requires Enabled(s, event) && IsContinuation(event)
    ensures Outstanding(Step(s, event), |s.barriers|) == Outstanding(s, |s.barriers|) - 1
    ensures SameFacts(s, Step(s, event))
  {
    OutstandingAfter(s, event, |s.barriers|);
  }

  lemma {:induction false} SameFactsSameVerdict(s: State, t: State, i: nat)
    requires SameFacts(s, t) && i < |s.barriers|
    ensures Verdict(t, i) == Verdict(s, i)
  {
    if i > 0 {
      SameFactsSameVerdict(s, t, i - 1);
    }
  }

  /** `events` are continuations that run from `s` until none is left; the facts stay the same. */
  ghost predicate Drains(s: State, events: seq<Event>) {
    && (forall k :: 0 <= k < |events| ==> IsContinuation(events[k]))
    && RunOf(s, events).Some?
    && Still(RunOf(s, events).value)
    && SameFacts(s, RunOf(s, events).value)
  }

  lemma {:induction false} DrainsOneMore(s: State, event: Event, rest: seq<Event>)
    requires Enabled(s, event) && IsContinuation(event) && Drains(Step(s, event), rest)
    ensures Drains(s, [event] + rest)
    ensures RunOf(s, [event] + rest) == RunOf(Step(s, event), rest)
  {
    assert ([event] + rest)[1..] == rest;
    ContinuationsDecrease(s, event);
  }

  lemma {:induction false} ContinuationsRunOut(s: State) returns (events: seq<Event>)
    ensures Drains(s, events) && |events| <= Outstanding(s, |s.barriers|)
    decreases Outstanding(s, |s.barriers|)
  {
    if Still(s) {
      events := [];
    } else {
      var i: nat :| i < |s.barriers| && (Enabled(s, BarrierSettles(i)) || Enabled(s, BarrierDelivers(i)));
      var event := if Enabled(s, BarrierSettles(i)) then BarrierSettles(i) else BarrierDelivers(i);
      ContinuationsDecrease(s, event);
      var rest := ContinuationsRunOut(Step(s, event));
      DrainsOneMore(s, event, rest);
      events := [event] + rest;
    }
  }

  /**
   * From every moment of a run the continuations run out, and wherever they do the handoff shows what the
   * closes and removals say at that moment: it stays pending exactly when they give no verdict.
   */
  lemma {:induction false} DrainedHandoffIsVerdict(s: State, events: seq<Event>)
    requires Consistent(s) && Drains(s, events)
    ensures RunOf(s, events).value.handoff == Outlook(s)
  {
    RunKeepsConsistent(s, events);
    var t := RunOf(s, events).value;
    StillHandoffIsVerdict(t);
    if s.barriers != [] {
      SameFactsSameVerdict(s, t, |s.barriers| - 1);
    }
  }

  /** What the closes alone decide. */
  ghost function Decision(s: State): Handoff {
    if forall i: nat :: i < |s.barriers| ==> Contained(ClosedWith(s, i)) then Ready else Failed
  }

  ghost function ClosedWith(s: State, i: nat): CloseOutcome {
    if i < |s.barriers| && s.barriers[i].close.Settled? then s.barriers[i].close.outcome else Threw
  }

  lemma {:induction false} SettledVerdictIsDecision(s: State)
    requires AllSettled(s)
    ensures Outlook(s) == Decision(s)
  {
    if s.barriers != [] {
      var last: nat := |s.barriers| - 1;
      VerdictMeans(s, last);
      assert FinishedBetween(s, 0, last);
      forall i: nat | i < |s.barriers|
        ensures Clear(s, i) <==> Contained(ClosedWith(s, i))
      {
        assert Finished(s, i);
      }
    }
  }

  /**
   * Once every close and captured removal has settled, the continuations left over run to quiescence and
   * decide the handoff by the closes alone.
   */
  lemma {:induction false} ContinuationsDrain(s: State) returns (events: seq<Event>)
    requires Consistent(s) && AllSettled(s)
    ensures Drains(s, events) && |events| <= Outstanding(s, |s.barriers|)
    ensures Quiescent(RunOf(s, events).value) && RunOf(s, events).value.handoff == Decision(s)
  {
    events := ContinuationsRunOut(s);
    DrainedHandoffIsVerdict(s, events);
    SettledVerdictIsDecision(s);
    var t := RunOf(s, events).value;
    forall i: nat | i < |t.barriers|
      ensures Finished(t, i)
    {
      assert Finished(s, i);
    }
  }

  /**
   * Exactly when a handoff that is not pending also means that everything has settled: everything has, or
   * no rejected close is followed by finished requests only.
   */
  lemma {:induction false} NotPendingMeansSettledIff(s: State)
    requires Consistent(s) && Still(s) && s.barriers != []
    ensures (s.handoff != Pending ==> AllSettled(s)) <==> AllSettled(s) || !RejectionDecides(s, |s.barriers| - 1)
  {
    StillHandoffIsVerdict(s);
    VerdictMeans(s, |s.barriers| - 1);
    if FinishedBetween(s, 0, |s.barriers| - 1) {
      assert AllSettled(s);
    }
  }

  // ---------------------------------------------------------------- what ready means, written out

  /** A settled close observed a snapshot exactly when the request had a coordinator, unless it was rejected. */
  ghost predicate ClosesMatch(s: State) {
    forall i: nat :: i < |s.barriers| && s.barriers[i].close.Settled? ==>
      (s.barriers[i].coordinator <==> !s.barriers[i].close.outcome.NothingToClose?)
  }

  lemma {:induction false} RunKeepsClosesMatch(s: State, events: seq<Event>)
    requires ClosesMatch(s) && RunOf(s, events).Some?
    ensures ClosesMatch(RunOf(s, events).value)
    decreases |events|
  {
    if events != [] {
      RunKeepsClosesMatch(Step(s, events[0]), events[1..]);
    }
  }

  /** The service stopped, nothing retained, nothing discarded, no service failure; or nothing to close. */
  ghost predicate ClosedCleanly(s: State, i: nat)
    requires i < |s.barriers|
  {
    s.barriers[i].close ==
      Settled(if s.barriers[i].coordinator then Observed(Snapshot(true, 0, 0, false)) else NothingToClose)
  }

  lemma {:induction false} ClearIsClosedCleanly(s: State, i: nat)
    requires ClosesMatch(s) && i < |s.barriers|
    ensures Clear(s, i) <==> ClosedCleanly(s, i) && RemovalDone(s, s.barriers[i].removal)
    ensures Uncontained(s, i) <==> s.barriers[i].close.Settled? && !ClosedCleanly(s, i)
  {
  }

  /**
   * Along every interleaving, a ready handoff means that every request so far was closed cleanly; and when
   * everything has settled it is ready if and only if they all were, and failed otherwise.
   */
  lemma {:induction false} ReadyIffClosedCleanly(events: seq<Event>)
    requires RunOf(INITIAL, events).Some?
    ensures var s := RunOf(INITIAL, events).value;
      && (s.handoff == Ready ==> forall i: nat :: i < |s.barriers| ==> ClosedCleanly(s, i))
      && (Quiescent(s) ==>
            s.handoff == if forall i: nat :: i < |s.barriers| ==> ClosedCleanly(s, i) then Ready else Failed)
  {
    RunKeepsConsistent(INITIAL, events);
    RunKeepsClosesMatch(INITIAL, events);
    var s := RunOf(INITIAL, events).value;
    forall i: nat | i < |s.barriers|
      ensures Clear(s, i) <==> ClosedCleanly(s, i) && RemovalDone(s, s.barriers[i].removal)
      ensures Uncontained(s, i) <==> s.barriers[i].close.Settled? && !ClosedCleanly(s, i)
    {
      ClearIsClosedCleanly(s, i);
    }
    if s.handoff == Ready {
      ReadyMeansClear(s);
    }
    if Quiescent(s) {
      QuiescentHandoffIsDecided(s);
    }
  }

  // ---------------------------------------------------------------- what a request waits for, written out

  /** A removal is pending exactly while it runs, and there is at most one. */
  ghost predicate PendingRuns(s: State) {
    && (forall r :: 0 <= r < |s.removals| ==> (s.removals[r].RemovalRunning? <==> s.pendingRemoval == Some(r)))
    && (s.pendingRemoval.Some? ==> s.pendingRemoval.value < |s.removals|)
  }

  lemma {:induction false} RunKeepsPendingRuns(s: State, events: seq<Event>)
    requires PendingRuns(s) && RunOf(s, events).Some?
    ensures PendingRuns(RunOf(s, events).value)
    decreases |events|
  {
    if events != [] {
      StepKeepsPendingRuns(s, events[0]);
      RunKeepsPendingRuns(Step(s, events[0]), events[1..]);
    }
  }

  lemma {:induction false} StepKeepsPendingRuns(s: State, event: Event)
    requires PendingRuns(s) && Enabled(s, event)
    ensures PendingRuns(Step(s, event))
  {
  }

  /** A request with a coordinator or a pending removal makes the handoff pending; any other does nothing. */
  lemma {:induction false} RequestMeans(s: State, coordinator: bool)
    ensures var t := Step(s, Request(coordinator));
      if coordinator || s.pendingRemoval.Some? then
        && t.handoff == Pending && |t.barriers| == |s.barriers| + 1
        && t.barriers[|s.barriers|].coordinator == coordinator && t.barriers[|s.barriers|].close.Running?
      else t == s
  {
  }

  /** A removal request while one is pending changes nothing; otherwise a new removal runs and is pending. */
  lemma {:induction false} RemovalRequestMeans(s: State, coordinator: bool)
    ensures var t := Step(s, RequestRemoval(coordinator));
      if s.pendingRemoval.Some? then t == s
      else
        && t.removals == s.removals + [RemovalRunning] && t.pendingRemoval == Some(|s.removals|)
        && (coordinator ==> t.handoff == s.handoff && t.barriers == s.barriers)
        && (!coordinator ==> t.handoff == Pending && |t.barriers| == |s.barriers| + 1)
  {
  }

  /**
   * A removal that is pending at a request, or that a removal request without coordinator starts, has
   * settled whenever the handoff is ready after that request, whatever happens in between.
   */
  lemma {:induction false} ReadyAfterPendingRemoval(before: seq<Event>, request: Event, between: seq<Event>)
    requires RunOf(INITIAL, before).Some?
    requires var s := RunOf(INITIAL, before).value;
      || (request.Request? && s.pendingRemoval.Some?)
      || (request == RequestRemoval(false) && s.pendingRemoval.None?)
    requires RunOf(Step(RunOf(INITIAL, before).value, request), between).Some?
    ensures var s := RunOf(INITIAL, before).value;
      var t := RunOf(Step(s, request), between).value;
      var r := if request.Request? then s.pendingRemoval.value else |s.removals|;
      t.handoff == Ready ==> r < |t.removals| && t.removals[r].RemovalSettled?
  {
    var s := RunOf(INITIAL, before).value;
    var requested := Step(s, request);
    RunKeepsConsistent(INITIAL, before);
    StepKeepsConsistent(s, request);
    RunKeepsConsistent(requested, between);
    var t := RunOf(requested, between).value;
    if t.handoff == Ready {
      ReadyMeansClear(t);
      assert Clear(t, |s.barriers|);
    }
  }

  // ---------------------------------------------------------------- a close that is rejected early

  /** One event of a run. */
  lemma {:induction false} RunStep(s: State, events: seq<Event>, k: nat)
    requires k < |events| && Enabled(s, events[k])
    ensures RunOf(s, events[k..]) == RunOf(Step(s, events[k]), events[k + 1..])
  {
    assert events[k..][1..] == events[k + 1..];
  }

  /** Two requests, of which only the second close settles, by rejection. */
  const REJECTED_CLOSE: seq<Event> := [
    Request(true), Request(true), CloseSettles(1, Threw), BarrierSettles(1), BarrierDelivers(1)]

  /** The state with two requests whose first close is still running. */
  function TwoRequests(handoff: Handoff, close: Close, settled: Option<bool>, delivered: bool): State {
    State(
      handoff,
      [Barrier(true, Running, None, None, false), Barrier(true, close, None, settled, delivered)], [], None)
  }

  lemma {:induction false} TwoRequestsStart()
    ensures RunOf(INITIAL, REJECTED_CLOSE) == RunOf(TwoRequests(Pending, Running, None, false), REJECTED_CLOSE[2..])
  {
    var events := REJECTED_CLOSE;
    assert events[0..] == events;
    RunStep(INITIAL, events, 0);
    RunStep(Step(INITIAL, events[0]), events, 1);
    assert Step(Step(INITIAL, events[0]), events[1]) == TwoRequests(Pending, Running, None, false);
  }

  /** A rejected close fails the handoff at once: this run ends failed although the first close still runs. */
  lemma {:induction false} RejectedCloseFailsEarly()
    ensures var run := RunOf(INITIAL, REJECTED_CLOSE);
      run.Some? && run.value.handoff == Failed && run.value.barriers[0].close.Running?
  {
    var events := REJECTED_CLOSE;
    TwoRequestsStart();
    RunStep(TwoRequests(Pending, Running, None, false), events, 2);
    assert Step(TwoRequests(Pending, Running, None, false), events[2]) ==
      TwoRequests(Pending, Settled(Threw), None, false);
    RunStep(TwoRequests(Pending, Settled(Threw), None, false), events, 3);
    assert Step(TwoRequests(Pending, Settled(Threw), None, false), events[3]) ==
      TwoRequests(Pending, Settled(Threw), Some(false), false);
    RunStep(TwoRequests(Pending, Settled(Threw), Some(false), false), events, 4);
    assert events[5..] == [];
  }

  // ---------------------------------------------------------------- removals that fail

  /** Request `i` captured a removal that settled with this result. */
  ghost predicate Captured(s: State, i: nat, fulfilled: bool)
    requires i < |s.barriers|
  {
    && s.barriers[i].removal.Some?
    && s.barriers[i].removal.value < |s.removals|
    && s.removals[s.barriers[i].removal.value] == RemovalSettled(fulfilled)
  }

  /** Every removal that a request captured was fulfilled. */
  ghost predicate RemovalsFulfilled(s: State) {
    forall i: nat :: i < |s.barriers| ==> s.barriers[i].removal.None? || Captured(s, i, true)
  }

  /** Some request captured a removal that was rejected. */
  ghost predicate CapturedRejection(s: State) {
    exists i: nat :: i < |s.barriers| && Captured(s, i, false)
  }

  /** A removal and a request that captures it; both settle, the removal by rejection. */
  const REJECTED_REMOVAL: seq<Event> := [
    RequestRemoval(true), Request(true), CloseSettles(0, CONTAINED), RemovalFinishes(0), RemovalSettles(0, false),
    BarrierSettles(0), BarrierDelivers(0)]

  const CONTAINED := Observed(Snapshot(true, 0, 0, false))

  /** The state with one request, which captured removal 0. */
  function OneRequest(handoff: Handoff, close: Close, removal: Removal, settled: Option<bool>, delivered: bool): State {
    State(
      handoff, [Barrier(true, close, Some(0), settled, delivered)], [removal],
      if removal.RemovalRunning? then Some(0) else None)
  }

  lemma OneRequestStarts()
    ensures Step(Step(INITIAL, RequestRemoval(true)), Request(true)) ==
      OneRequest(Pending, Running, RemovalRunning, None, false)
  {
    assert [] + [RemovalRunning] == [RemovalRunning];
  }

  lemma {:induction false} OneRequestSteps(
    handoff: Handoff, close: Close, removal: Removal, settled: Option<bool>, event: Event)
    requires Enabled(OneRequest(handoff, close, removal, settled, false), event)
    requires !event.Request? && !event.RequestRemoval?
    ensures var s := OneRequest(handoff, close, removal, settled, false);
      var decided := if settled == Some(true) then Ready else Failed;
      match event
      case CloseSettles(_, outcome) => Step(s, event) == OneRequest(handoff, Settled(outcome), removal, settled, false)
      case RemovalFinishes(_) => Step(s, event) == OneRequest(handoff, close, RemovalFinished, settled, false)
      case RemovalSettles(_, fulfilled) =>
        Step(s, event) == OneRequest(handoff, close, RemovalSettled(fulfilled), settled, false)
      case BarrierSettles(_) => Step(s, event) == OneRequest(handoff, close, removal, BarrierValue(s, 0), false)
      case BarrierDelivers(_) => Step(s, event) == OneRequest(decided, close, removal, settled, true)
      case _ => true
  {
  }

  lemma RejectedRemovalBegins()
    ensures RunOf(INITIAL, REJECTED_REMOVAL) ==
      RunOf(OneRequest(Pending, Running, RemovalRunning, None, false), REJECTED_REMOVAL[2..])
  {
    var events := REJECTED_REMOVAL;
    assert events[0..] == events;
    RunStep(INITIAL, events, 0);
    RunStep(Step(INITIAL, events[0]), events, 1);
    OneRequestStarts();
  }

  lemma RejectedRemovalSettles()
    ensures RunOf(OneRequest(Pending, Running, RemovalRunning, None, false), REJECTED_REMOVAL[2..]) ==
      RunOf(OneRequest(Pending, Settled(CONTAINED), RemovalSettled(false), None, false), REJECTED_REMOVAL[5..])
  {
    var events, close := REJECTED_REMOVAL, Settled(CONTAINED);
    OneRequestSteps(Pending, Running, RemovalRunning, None, events[2]);
    RunStep(OneRequest(Pending, Running, RemovalRunning, None, false), events, 2);
    OneRequestSteps(Pending, close, RemovalRunning, None, events[3]);
    RunStep(OneRequest(Pending, close, RemovalRunning, None, false), events, 3);
    OneRequestSteps(Pending, close, RemovalFinished, None, events[4]);
    RunStep(OneRequest(Pending, close, RemovalFinished, None, false), events, 4);
  }

  lemma RejectedRemovalEnds()
    ensures RunOf(OneRequest(Pending, Settled(CONTAINED), RemovalSettled(false), None, false), REJECTED_REMOVAL[5..]) ==
      Some(OneRequest(Ready, Settled(CONTAINED), RemovalSettled(false), Some(true), true))
  {
    var events, close := REJECTED_REMOVAL, Settled(CONTAINED);
    OneRequestSteps(Pending, close, RemovalSettled(false), None, events[5]);
    RunStep(OneRequest(Pending, close, RemovalSettled(false), None, false), events, 5);
    OneRequestSteps(Pending, close, RemovalSettled(false), Some(true), events[6]);
    RunStep(OneRequest(Pending, close, RemovalSettled(false), Some(true), false), events, 6);
    assert events[7..] == [];
  }

  /** A rejected removal does not fail the handoff: this run ends ready although its removal was rejected. */
  lemma RejectedRemovalStillReady()
    ensures var run := RunOf(INITIAL, REJECTED_REMOVAL);
      run.Some? && run.value.handoff == Ready && CapturedRejection(run.value) && !RemovalsFulfilled(run.value)
  {
    RejectedRemovalBegins();
    RejectedRemovalSettles();
    RejectedRemovalEnds();
    var s := RunOf(INITIAL, REJECTED_REMOVAL).value;
    assert Captured(s, 0, false) && !Captured(s, 0, true);
  }

  lemma {:induction false} CapturedRemovalsSettle(s: State, i: nat)
    requires Quiescent(s) && i < |s.barriers| && s.barriers[i].removal.Some?
    ensures Captured(s, i, true) <==> !Captured(s, i, false)
  {
    assert Finished(s, i);
  }

  lemma {:induction false} FulfilledIffNoRejection(s: State)
    requires Quiescent(s)
    ensures RemovalsFulfilled(s) <==> !CapturedRejection(s)
  {
    forall i: nat | i < |s.barriers| && s.barriers[i].removal.Some?
      ensures Captured(s, i, true) <==> !Captured(s, i, false)
    {
      CapturedRemovalsSettle(s, i);
    }
  }

  /**
   * Exactly when a ready handoff also means fulfilled removals: some close is uncontained, so that the
   * handoff is not ready at all, or no captured removal was rejected.
   */
  lemma {:induction false} ReadyImpliesRemovedIff(s: State)
    requires Consistent(s) && Quiescent(s)
    ensures (s.handoff == Ready ==> RemovalsFulfilled(s)) <==>
      || (exists i: nat :: i < |s.barriers| && Uncontained(s, i))
      || !CapturedRejection(s)
  {
    FulfilledIffNoRejection(s);
    QuiescentHandoffIsDecided(s);
  }

  /** The state and the event with every removal taken as fulfilled. */
  function WithoutResult(removal: Removal): Removal {
    if removal.RemovalSettled? then RemovalSettled(true) else removal
  }

  function WithoutResults(s: State): State {
    s.(removals := seq(|s.removals|, r requires 0 <= r < |s.removals| => WithoutResult(s.removals[r])))
  }

  function EventWithoutResult(event: Event): Event {
    if event.RemovalSettles? then RemovalSettles(event.removal, true) else event
  }

  function EventsWithoutResults(events: seq<Event>): seq<Event> {
    seq(|events|, i requires 0 <= i < |events| => EventWithoutResult(events[i]))
  }

  lemma {:induction false} BarrierValueIgnoresResults(s: State, i: nat)
    requires i < |s.barriers|
    ensures BarrierValue(WithoutResults(s), i) == BarrierValue(s, i)
  {
  }

  lemma {:induction false} StepIgnoresResults(s: State, event: Event)
    ensures Enabled(WithoutResults(s), EventWithoutResult(event)) == Enabled(s, event)
    ensures Enabled(s, event) ==>
      Step(WithoutResults(s), EventWithoutResult(event)) == WithoutResults(Step(s, event))
  {
    if event.BarrierSettles? && event.barrier < |s.barriers| {
      BarrierValueIgnoresResults(s, event.barrier);
    }
    if Enabled(s, event) {
      var t, u := Step(WithoutResults(s), EventWithoutResult(event)), WithoutResults(Step(s, event));
      assert t.removals == u.removals;
    }
  }

  /** Readiness never depends on the results of removals: a run goes the same way with all of them fulfilled. */
  lemma {:induction false} RunIgnoresResults(s: State, events: seq<Event>)
    ensures var run, plain := RunOf(s, events), RunOf(WithoutResults(s), EventsWithoutResults(events));
      && (run.Some? <==> plain.Some?)
      && (run.Some? ==> plain.value == WithoutResults(run.value) && plain.value.handoff == run.value.handoff)
    decreases |events|
  {
    if events != [] {
      StepIgnoresResults(s, events[0]);
      assert EventsWithoutResults(events)[1..] == EventsWithoutResults(events[1..]);
      if Enabled(s, events[0]) {
        RunIgnoresResults(Step(s, events[0]), events[1..]);
      }
    }
  }

  // ---------------------------------------------------------------- the callbacks

  /** The refs of the application shell, the promises they point to, and the presented handoff. */
  class NarrationShell {
    var narrationHandoff: Handoff
    /** The barrier promise the reference points to; none is the initial resolved promise. */
    var narrationCloseBarrier: Option<nat>
    var pendingChatterboxRemoval: Option<nat>
    var barriers: seq<Barrier>
    var removals: seq<Removal>

    /** The reference points to the youngest barrier, and the shell keeps the safety law. */
    ghost predicate Valid()
      reads this
    {
      && narrationCloseBarrier == (if barriers == [] then None else Some(|barriers| - 1))
      && Consistent(Model())
    }

    ghost function Model(): State
      reads this
    {
      State(narrationHandoff, barriers, removals, pendingChatterboxRemoval)
    }

    constructor ()
      ensures Valid() && Model() == INITIAL
    {
      narrationHandoff, narrationCloseBarrier, pendingChatterboxRemoval := Ready, None, None;
      barriers, removals := [], [];
    }

    method ContainNarrationForReplacement(coordinator: bool)
      requires Valid()
      modifies this
      ensures Valid() && Model() == Step(old(Model()), Request(coordinator))
    {
      StepKeepsConsistent(Model(), Request(coordinator));
      if !coordinator && pendingChatterboxRemoval.None? {
        return;
      }
      narrationHandoff := Pending;
      var barrier := Barrier(coordinator, Running, pendingChatterboxRemoval, None, false);
      narrationCloseBarrier := Some(|barriers|);
      barriers := barriers + [barrier];
    }

    method HandleChatterboxRemoval(coordinator: bool) returns (removal: nat)
      requires Valid()
      modifies this
      ensures Valid() && Model() == Step(old(Model()), RequestRemoval(coordinator))
      ensures pendingChatterboxRemoval == Some(removal)
      ensures old(pendingChatterboxRemoval).Some? ==> removal == old(pendingChatterboxRemoval).value
    {
      if pendingChatterboxRemoval.Some? {
        return pendingChatterboxRemoval.value;
      }
      ghost var before := Model();
      StepKeepsConsistent(before, RequestRemoval(coordinator));
      removal := |removals|;
      removals := removals + [RemovalRunning];
      pendingChatterboxRemoval := Some(removal);
      StartedRemovalKeepsConsistent(before);
      if !coordinator {
        ContainNarrationForReplacement(coordinator);
      }
    }

    method CloseSettled(barrier: nat, outcome: CloseOutcome)
      requires Valid() && Enabled(Model(), CloseSettles(barrier, outcome))
      modifies this
      ensures Valid() && Model() == Step(old(Model()), CloseSettles(barrier, outcome))
    {
      StepKeepsConsistent(Model(), CloseSettles(barrier, outcome));
      barriers := barriers[barrier := barriers[barrier].(close := Settled(outcome))];
    }

    /** The final step of a removal clears the reference if it still points to this removal. */
    method RemovalFinally(removal: nat)
      requires Valid() && Enabled(Model(), RemovalFinishes(removal))
      modifies this
      ensures Valid() && Model() == Step(old(Model()), RemovalFinishes(removal))
    {
      StepKeepsConsistent(Model(), RemovalFinishes(removal));
      removals := removals[removal := RemovalFinished];
      if pendingChatterboxRemoval == Some(removal) {
        pendingChatterboxRemoval := None;
      }
    }

    /** The removal promise is fulfilled or rejected; a barrier that captured it catches the rejection. */
    method RemovalPromiseSettled(removal: nat, fulfilled: bool)
      requires Valid() && Enabled(Model(), RemovalSettles(removal, fulfilled))
      modifies this
      ensures Valid() && Model() == Step(old(Model()), RemovalSettles(removal, fulfilled))
    {
      StepKeepsConsistent(Model(), RemovalSettles(removal, fulfilled));
      removals := removals[removal := RemovalSettled(fulfilled)];
    }

    /** `Promise.all` of the previous barrier, the close and the removal, mapped to one truth value. */
    method BarrierPromiseSettled(barrier: nat)
      requires Valid() && Enabled(Model(), BarrierSettles(barrier))
      modifies this
      ensures Valid() && Model() == Step(old(Model()), BarrierSettles(barrier))
    {
      StepKeepsConsistent(Model(), BarrierSettles(barrier));
      var b := barriers[barrier];
      var previous := if barrier == 0 then Some(true) else barriers[barrier - 1].settled;
      var value := if b.close.outcome.Threw? then false else previous.value && Contained(b.close.outcome);
      barriers := barriers[barrier := b.(settled := Some(value))];
    }

    /** The callback of a barrier changes the handoff only if the barrier is still the current one. */
    method BarrierCallback(barrier: nat)
      requires Valid() && Enabled(Model(), BarrierDelivers(barrier))
      modifies this
      ensures Valid() && Model() == Step(old(Model()), BarrierDelivers(barrier))
    {
      StepKeepsConsistent(Model(), BarrierDelivers(barrier));
      var contained := barriers[barrier].settled.value;
      if narrationCloseBarrier == Some(barrier) {
        narrationHandoff := if contained then Ready else Failed;
      }
      barriers := barriers[barrier := barriers[barrier].(delivered := true)];
    }
  }
}
