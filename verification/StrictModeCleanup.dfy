/**
 * Resource cleanup that survives StrictMode's setup-cleanup-setup probe.
 *
 * An effect owns a resource. Its cleanup only queues a microtask that closes the resource, and the next
 * setup supersedes that microtask through a shared token. The steps of React (setup, cleanup) and of
 * the microtask queue interleave freely; the laws hold over every interleaving.
 */
module StrictModeCleanup {
  import opened Wrappers

  // ---------------------------------------------------------------- the protocol on values

  /** A queued cleanup: whether its token is still current, and the resource it was created for. */
  datatype Task<R> = Task(live: bool, resource: Option<R>)

  /**
   * `effect` is the resource of the mounted effect, if one is mounted. `activated` and `closed` record
   * every time a resource became the active one and every call of `close`.
   */
  datatype State<R> = State(
    active: Option<R>, effect: Option<Option<R>>, pending: seq<Task<R>>, activated: seq<R>, closed: seq<R>)

  function Initial<R>(): State<R> { State(None, None, [], [], []) }

  function Listed<R>(resource: Option<R>): seq<R> {
    if resource.Some? then [resource.value] else []
  }

  function Superseded<R>(pending: seq<Task<R>>): seq<Task<R>> {
    seq(|pending|, i requires 0 <= i < |pending| => pending[i].(live := false))
  }

  /** The effect runs for `resource`: pending cleanups are superseded, another resource is closed. */
  function SetupOf<R(==)>(s: State<R>, resource: Option<R>): State<R> {
    var replaced := s.active.Some? && s.active != resource;
    State(
      resource, Some(resource), Superseded(s.pending),
      s.activated + (if s.active == resource then [] else Listed(resource)),
      s.closed + (if replaced then Listed(s.active) else []))
  }

  /** The effect's cleanup only queues its microtask. */
  function CleanupOf<R>(s: State<R>): State<R>
    requires s.effect.Some?
  {
    s.(effect := None, pending := s.pending + [Task(true, s.effect.value)])
  }

  /** The oldest microtask closes its resource unless it was superseded or the resource is not active. */
  function MicrotaskOf<R(==)>(s: State<R>): State<R>
    requires s.pending != []
  {
    var task := s.pending[0];
    var rest := s.(pending := s.pending[1..]);
    if !task.live || s.active != task.resource then rest
    else rest.(active := None, closed := s.closed + Listed(task.resource))
  }

  datatype Event<R> = Setup(resource: Option<R>) | Cleanup | Microtask

  /** React mounts an effect only after cleaning up the previous one; a microtask runs only if queued. */
  predicate Enabled<R>(s: State<R>, event: Event<R>) {
    match event
    case Setup(_) => s.effect.None?
    case Cleanup => s.effect.Some?
    case Microtask => s.pending != []
  }

  function Step<R(==)>(s: State<R>, event: Event<R>): State<R>
    requires Enabled(s, event)
  {
    match event
    case Setup(resource) => SetupOf(s, resource)
    case Cleanup => CleanupOf(s)
    case Microtask => MicrotaskOf(s)
  }

  /** The state after a run, or none when some event is not enabled. */
  function RunOf<R(==)>(s: State<R>, events: seq<Event<R>>): Option<State<R>>
    decreases |events|
  {
    if events == [] then Some(s)
    else if !Enabled(s, events[0]) then None
    else RunOf(Step(s, events[0]), events[1..])
  }

  // ---------------------------------------------------------------- the invariant

  /**
   * At most the youngest cleanup is live, and only while nothing is mounted; then it is responsible for
   * the active resource. Everything activated earlier is closed, in order.
   */
  ghost predicate Owned<R>(s: State<R>) {
    && (forall i :: 0 <= i < |s.pending| - 1 ==> !s.pending[i].live)
    && (s.effect.Some? ==> s.active == s.effect.value && (s.pending != [] ==> !s.pending[|s.pending| - 1].live))
    && (s.effect.None? ==>
          if s.pending != [] && s.pending[|s.pending| - 1].live then s.pending[|s.pending| - 1].resource == s.active
          else s.active == None)
    && s.activated == s.closed + Listed(s.active)
  }

  lemma {:induction false} StepKeepsOwned<R>(s: State<R>, event: Event<R>)
    requires Owned(s) && Enabled(s, event)
    ensures Owned(Step(s, event))
  {
    match event
    case Setup(resource) =>
      assert s.closed + Listed(s.active) + Listed(resource) == s.activated + Listed(resource);
    case Cleanup =>
    case Microtask =>
      assert s.closed + Listed(s.active) + Listed(None) == s.activated;
  }

  lemma {:induction false} RunKeepsOwned<R>(s: State<R>, events: seq<Event<R>>)
    requires Owned(s) && RunOf(s, events).Some?
    ensures Owned(RunOf(s, events).value)
    decreases |events|
  {
    if events != [] {
      StepKeepsOwned(s, events[0]);
      RunKeepsOwned(Step(s, events[0]), events[1..]);
    }
  }

  /**
   * Over every interleaving each activation ends in exactly one close, in the order of activation, and
   * only the resource active now is still open; a mounted resource is the active one.
   */
  lemma {:induction false} EachActivationClosedOnce<R>(events: seq<Event<R>>)
    requires RunOf(Initial<R>(), events).Some?
    ensures var s := RunOf(Initial<R>(), events).value;
      && s.activated == s.closed + Listed(s.active)
      && (s.effect.Some? ==> s.active == s.effect.value)
  {
    RunKeepsOwned(Initial<R>(), events);
  }

  // ---------------------------------------------------------------- back-to-back re-runs

  /** While mounted, the browser runs a queued microtask or React re-runs the effect back to back. */
  datatype MountedStep = RunTask | Rerun

  function MountedRun<R(==)>(s: State<R>, steps: seq<MountedStep>): State<R>
    requires s.effect.Some?
    decreases |steps|
  {
    if steps == [] then s
    else
      var next :=
        match steps[0]
        case RunTask => if s.pending == [] then s else MicrotaskOf(s)
        case Rerun => SetupOf(CleanupOf(s), s.effect.value);
      MountedRun(next, steps[1..])
  }

  /** A mounted resource is never closed by re-runs whose cleanup and setup are back to back. */
  lemma {:induction false} MountedResourceStaysOpen<R>(s: State<R>, steps: seq<MountedStep>)
    requires Owned(s) && s.effect.Some?
    ensures var t := MountedRun(s, steps);
      && t.active == s.active && t.effect == s.effect
      && t.closed == s.closed && t.activated == s.activated
      && Owned(t)
    decreases |steps|
  {
    if steps != [] {
      match steps[0]
      case RunTask =>
        if s.pending == [] {
          MountedResourceStaysOpen(s, steps[1..]);
        } else {
          StepKeepsOwned(s, Microtask);
          MountedResourceStaysOpen(MicrotaskOf(s), steps[1..]);
        }
      case Rerun =>
        StepKeepsOwned(s, Cleanup);
        StepKeepsOwned(CleanupOf(s), Setup(s.effect.value));
        assert s.activated + [] == s.activated && s.closed + [] == s.closed;
        MountedResourceStaysOpen(SetupOf(CleanupOf(s), s.effect.value), steps[1..]);
    }
  }

  function Drained<R(==)>(s: State<R>): State<R>
    decreases |s.pending|
  {
    if s.pending == [] then s else Drained(MicrotaskOf(s))
  }

  /** After an unmount, draining the microtask queue closes everything that was ever activated. */
  lemma {:induction false} DrainAfterUnmountClosesAll<R>(s: State<R>)
    requires Owned(s) && s.effect.None?
    ensures var t := Drained(s);
      && t.active == None && t.closed == s.activated == t.activated
      && t.pending == [] && t.effect.None? && Owned(t)
    decreases |s.pending|
  {
    if s.pending != [] {
      StepKeepsOwned(s, Microtask);
      DrainAfterUnmountClosesAll(MicrotaskOf(s));
    } else {
      assert s.closed + [] == s.closed;
    }
  }

  /**
   * Being back to back matters: when the microtasks run between cleanup and setup, the still wanted
   * resource is closed once and activated again.
   */
  lemma {:induction false} InterruptedRerunCloses<R>(s: State<R>)
    requires Owned(s) && s.effect.Some? && s.effect.value.Some?
    ensures var t := SetupOf(Drained(CleanupOf(s)), s.effect.value);
      t.closed == s.closed + Listed(s.active) && t.activated == s.activated + Listed(s.active) && t.active == s.active
  {
    StepKeepsOwned(s, Cleanup);
    DrainAfterUnmountClosesAll(CleanupOf(s));
    StepKeepsOwned(Drained(CleanupOf(s)), Setup(s.effect.value));
    var t := SetupOf(Drained(CleanupOf(s)), s.effect.value);
    assert t.closed == s.activated + [];
  }

  // ---------------------------------------------------------------- the hook

  /** The object shared by an effect and its queued cleanup. */
  class CleanupToken {
    var superseded: bool

    constructor ()
      ensures !superseded
    {
      superseded := false;
    }
  }

  datatype QueuedCleanup<R> = QueuedCleanup(token: CleanupToken, resource: Option<R>)

  class ResourceCleanup<R(==)> {
    var activeResource: Option<R>
    var cleanupToken: CleanupToken?
    var microtasks: seq<QueuedCleanup<R>>
    /** The token and resource the mounted effect's closure captured. */
    var mounted: Option<QueuedCleanup<R>>
    ghost var activated: seq<R>
    ghost var closed: seq<R>

    ghost function Tokens(): set<object>
      reads this
    {
      (set q | q in microtasks :: q.token as object) +
      (if mounted.Some? then {mounted.value.token as object} else {}) +
      (if cleanupToken != null then {cleanupToken as object} else {})
    }

    /** Every queued token but the current one is superseded; a mounted effect holds the current one. */
    ghost predicate Valid()
      reads this, Tokens()
    {
      && (cleanupToken != null ==> !cleanupToken.superseded)
      && (forall q :: q in microtasks ==> q.token == cleanupToken || q.token.superseded)
      && (mounted.Some? ==> mounted.value.token == cleanupToken)
    }

    ghost function Model(): State<R>
      reads this, Tokens()
    {
      State(
        activeResource,
        if mounted.Some? then Some(mounted.value.resource) else None,
        seq(|microtasks|, i requires 0 <= i < |microtasks| reads this, Tokens() =>
          Task(!microtasks[i].token.superseded, microtasks[i].resource)),
        activated,
        closed)
    }

    constructor ()
      ensures Valid() && Model() == Initial<R>()
    {
      activeResource, cleanupToken, microtasks, mounted := None, null, [], None;
      activated, closed := [], [];
    }

    method Setup(resource: Option<R>)
      requires Valid() && mounted.None?
      modifies this, cleanupToken
      ensures Valid() && fresh(cleanupToken)
      ensures Model() == SetupOf(old(Model()), resource)
    {
      if cleanupToken != null {
        cleanupToken.superseded := true;
      }
      var currentCleanup := new CleanupToken();
      cleanupToken := currentCleanup;
      ghost var previous := activeResource;
      if activeResource.Some? && activeResource != resource {
        closed := closed + [activeResource.value];
        activeResource := None;
      }
      activated := activated + if previous == resource then [] else Listed(resource);
      activeResource := resource;
      mounted := Some(QueuedCleanup(currentCleanup, resource));
    }

    method Cleanup()
      requires Valid() && mounted.Some?
      modifies this
      ensures Valid()
      ensures Model() == CleanupOf(old(Model()))
    {
      microtasks := microtasks + [mounted.value];
      mounted := None;
    }

    method RunMicrotask()
      requires Valid() && microtasks != []
      modifies this
      ensures Valid()
      ensures Model() == MicrotaskOf(old(Model()))
    {
      var task := microtasks[0];
      ghost var before := Model();
      microtasks := microtasks[1..];
      assert Model().pending == before.pending[1..];
      if task.token.superseded || activeResource != task.resource {
        return;
      }
      activeResource := None;
      closed := closed + Listed(task.resource);
    }
  }
}
