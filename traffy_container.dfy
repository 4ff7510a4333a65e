/**
 * The widget container (src/components/TraffyScript/TraffyContainer.tsx):
 * a one-time initialisation guard shared by the whole page, a three-valued
 * status per container, an attempt counter, and the polling interval that
 * waits for the widget script to appear.
 *
 * The browser is reduced to the three facts initializeTraffy observes when
 * it runs (`Env`): whether the container element is attached, whether the
 * widget global is present, and what renderTasks does when called.
 */
module TraffyContainer {

  datatype Status = Loading | Error | Success

  /** What the widget's renderTasks entry point does when it is called. */
  datatype RenderOutcome = Returned | ThrewError(message: string) | ThrewOther

  /** One call of renderTasks: the max_tasks option passed, and how it ended. */
  datatype RenderCall = RenderCall(maxTasks: int, outcome: RenderOutcome)

  /** The environment as initializeTraffy and checkTraffy see it at one moment. */
  datatype Env = Env(attached: bool, widgetPresent: bool, outcome: RenderOutcome)

  const MaxTasks := 1
  const NoContainerMessage := "Container reference is not available"
  const NoWidgetMessage := "Traffy script is not loaded." + " Check console for details."
  const InitErrorPrefix := "Error initializing Traffy: "
  const UnknownErrorDetail := "Unknown error"

  /** Number of calls in the log that returned normally. */
  function ReturnedCount(calls: seq<RenderCall>): nat {
    if calls == [] then 0
    else (if calls[0].outcome == Returned then 1 else 0) + ReturnedCount(calls[1..])
  }

  lemma {:induction false} ReturnedCountAppend(calls: seq<RenderCall>, c: RenderCall)
    ensures ReturnedCount(calls + [c]) == ReturnedCount(calls) + if c.outcome == Returned then 1 else 0
  {
    if calls != [] {
      assert (calls + [c])[1..] == calls[1..] + [c];
      ReturnedCountAppend(calls[1..], c);
    }
  }

  // ---------------------------------------------------------------------
  // The specification of initializeTraffy, on the state one container sees:
  // its own status, message, counter and latch, and the page-wide latch
  // and log of renderTasks calls.
  // ---------------------------------------------------------------------

  datatype Snapshot = Snapshot(
    status: Status,
    errorMessage: string,
    attempts: nat,
    localInit: bool,
    globalInit: bool,
    calls: seq<RenderCall>)

  /** The state a freshly rendered container starts in. */
  function Fresh(globalInit: bool, calls: seq<RenderCall>): Snapshot {
    Snapshot(Loading, "", 0, false, globalInit, calls)
  }

  /** True when a call of initializeTraffy gets past all three guards. */
  predicate Attempts(s: Snapshot, env: Env) {
    !s.globalInit && !s.localInit && env.attached && env.widgetPresent
  }

  /** One run of initializeTraffy. */
  function Initialize(s: Snapshot, env: Env): Snapshot {
    if s.globalInit || s.localInit then s.(status := Success)
    else if !env.attached then s.(status := Error, errorMessage := NoContainerMessage)
    else if !env.widgetPresent then s.(status := Error, errorMessage := NoWidgetMessage)
    else
      var tried := s.(attempts := s.attempts + 1, calls := s.calls + [RenderCall(MaxTasks, env.outcome)]);
      match env.outcome
      case Returned => tried.(localInit := true, globalInit := true, status := Success)
      case ThrewError(m) => tried.(status := Error, errorMessage := InitErrorPrefix + m)
      case ThrewOther => tried.(status := Error, errorMessage := InitErrorPrefix + UnknownErrorDetail)
  }

  /** The kinds of failure a message shown in the error panel can report. */
  datatype Failure = MissingContainer | MissingWidget | RenderFailed(detail: string) | Unrecognised

  function Diagnose(message: string): Failure {
    if message == NoContainerMessage then MissingContainer
    else if message == NoWidgetMessage then MissingWidget
    else if |InitErrorPrefix| <= |message| && message[..|InitErrorPrefix|] == InitErrorPrefix
    then RenderFailed(message[|InitErrorPrefix|..])
    else Unrecognised
  }

  /** The state invariant every container keeps, together with the page-wide log. */
  predicate Consistent(s: Snapshot) {
    && ReturnedCount(s.calls) == (if s.globalInit then 1 else 0)
    && (s.localInit ==> s.globalInit)
    && (s.status == Success ==> s.globalInit)
    && (s.status == Error ==> Diagnose(s.errorMessage) != Unrecognised)
    && (s.status == Loading ==> s.attempts == 0 && s.errorMessage == "" && !s.localInit)
  }

  /**
   * Another container moving the page-wide latch forward (false to true,
   * together with its one normal return) keeps this container consistent.
   */
  lemma LatchAdvanceKeepsConsistent(s: Snapshot, globalInit: bool, calls: seq<RenderCall>)
    requires Consistent(s)
    requires ReturnedCount(calls) == (if globalInit then 1 else 0)
    requires s.globalInit ==> globalInit
    ensures Consistent(s.(globalInit := globalInit, calls := calls))
  {
  }

  lemma FreshConsistent(globalInit: bool, calls: seq<RenderCall>)
    requires ReturnedCount(calls) == (if globalInit then 1 else 0)
    ensures Consistent(Fresh(globalInit, calls))
  {
  }

  /** Either latch set: status becomes success and nothing else changes. */
  lemma InitializeWhenLatched(s: Snapshot, env: Env)
    requires s.globalInit || s.localInit
    ensures Initialize(s, env) == s.(status := Success)
  {
  }

  /** Guard failures: an error status and message, no call, no attempt counted. */
  lemma InitializeGuardFailure(s: Snapshot, env: Env)
    requires !s.globalInit && !s.localInit && !(env.attached && env.widgetPresent)
    ensures var t := Initialize(s, env);
      && t.status == Error
      && t.errorMessage == (if !env.attached then NoContainerMessage else NoWidgetMessage)
      && t.calls == s.calls && t.attempts == s.attempts
      && t.localInit == s.localInit && t.globalInit == s.globalInit
  {
  }

  /**
   * Past the guards: exactly one renderTasks call with max_tasks 1 and one
   * more attempt counted, whatever renderTasks then does; both latches are
   * set exactly when it returns normally.
   */
  lemma InitializeAttempt(s: Snapshot, env: Env)
    requires Attempts(s, env)
    ensures var t := Initialize(s, env);
      && t.attempts == s.attempts + 1
      && t.calls == s.calls + [RenderCall(1, env.outcome)]
      && (t.globalInit <==> env.outcome == Returned)
      && (t.localInit <==> env.outcome == Returned)
      && (t.status == Success <==> env.outcome == Returned)
  {
  }

  /** When renderTasks throws, the message is the prefix and the error's own message. */
  lemma InitializeThrew(s: Snapshot, env: Env)
    requires Attempts(s, env) && env.outcome != Returned
    ensures var t := Initialize(s, env);
      && t.status == Error
      && t.errorMessage == InitErrorPrefix + (if env.outcome.ThrewError? then env.outcome.message else "Unknown error")
      && t.localInit == s.localInit && t.globalInit == s.globalInit
  {
  }

  /** The attempt counter and the call log grow together, by one exactly on an attempt. */
  lemma InitializeCountsAttempts(s: Snapshot, env: Env)
    ensures var t := Initialize(s, env);
      && t.attempts - s.attempts == |t.calls| - |s.calls| == (if Attempts(s, env) then 1 else 0)
      && s.calls <= t.calls
  {
  }

  /** Latches only go from false to true. */
  lemma InitializeLatchesMonotone(s: Snapshot, env: Env)
    ensures var t := Initialize(s, env);
      && (s.globalInit ==> t.globalInit)
      && (s.localInit ==> t.localInit)
      && (t.globalInit && !s.globalInit ==> Attempts(s, env) && env.outcome == Returned)
  {
  }

  lemma {:induction false} InitializePreservesConsistency(s: Snapshot, env: Env)
    requires Consistent(s)
    ensures Consistent(Initialize(s, env))
  {
    if Attempts(s, env) {
      ReturnedCountAppend(s.calls, RenderCall(MaxTasks, env.outcome));
      var t := Initialize(s, env);
      if t.status == Error {
        assert t.errorMessage[..|InitErrorPrefix|] == InitErrorPrefix;
      }
    }
  }

  /** At most one renderTasks call in the page-wide log ever returns normally. */
  lemma InitializeAtMostOnce(s: Snapshot, env: Env)
    requires Consistent(s)
    ensures ReturnedCount(Initialize(s, env).calls) <= 1
    ensures s.globalInit ==> ReturnedCount(Initialize(s, env).calls) == ReturnedCount(s.calls)
  {
    InitializePreservesConsistency(s, env);
  }

  /** After any run the status is never loading, and it is success exactly when the page is initialised. */
  lemma InitializeStatus(s: Snapshot, env: Env)
    requires Consistent(s)
    ensures var t := Initialize(s, env);
      t.status != Loading && (t.status == Success <==> t.globalInit)
  {
  }

  /** A run after success changes nothing at all, and success is never left. */
  lemma InitializeIdempotent(s: Snapshot, env: Env)
    requires Consistent(s) && s.status == Success
    ensures Initialize(s, env) == s
  {
  }

  /** The message in the error panel says which guard failed, or what renderTasks threw. */
  lemma InitializeErrorExplains(s: Snapshot, env: Env)
    requires !s.globalInit && !s.localInit && Initialize(s, env).status == Error
    ensures Diagnose(Initialize(s, env).errorMessage) ==
      if !env.attached then MissingContainer
      else if !env.widgetPresent then MissingWidget
      else if env.outcome.ThrewError? then RenderFailed(env.outcome.message)
      else RenderFailed(UnknownErrorDetail)
  {
    var t := Initialize(s, env);
    if Attempts(s, env) {
      assert t.errorMessage[..|InitErrorPrefix|] == InitErrorPrefix;
      assert t.errorMessage[|InitErrorPrefix|..] == if env.outcome.ThrewError? then env.outcome.message else UnknownErrorDetail;
      assert t.errorMessage[0] == 'E';
      assert NoContainerMessage[0] == 'C';
      assert NoWidgetMessage[0] == 'T';
    }
  }

  // ---------------------------------------------------------------------
  // The objects: the page-wide latch and the container instances.
  // ---------------------------------------------------------------------

  /** The JavaScript module instance: the page-wide latch, shared by every container. */
  class Process {
    var initialized: bool
    /** Every renderTasks call made so far, in order. */
    ghost var renderCalls: seq<RenderCall>

    ghost predicate Valid()
      reads this
    {
      ReturnedCount(renderCalls) == if initialized then 1 else 0
    }

    constructor ()
      ensures Valid() && !initialized && renderCalls == []
    {
      initialized := false;
      renderCalls := [];
    }
  }

  /** Lifecycle of a mounted React component instance. */
  datatype Phase = Created | Mounted | Unmounted

  class Container {
    const process: Process
    var status: Status
    var errorMessage: string
    var attempts: nat
    /** hasInitializedRef.current */
    var localInit: bool
    /** Whether the polling interval is set and not yet cleared. */
    var pollingArmed: bool
    var phase: Phase

    ghost function Snap(): Snapshot
      reads this, process
    {
      Snapshot(status, errorMessage, attempts, localInit, process.initialized, process.renderCalls)
    }

    ghost predicate Valid()
      reads this, process
    {
      process.Valid() && Consistent(Snap())
    }

    /** Nothing happens before mount; the interval runs only while mounted, and only until the status leaves loading. */
    ghost predicate Polling()
      reads this
    {
      && (phase == Created ==> status == Loading)
      && (pollingArmed ==> phase == Mounted)
      && (status != Loading ==> !pollingArmed)
    }

    /** The first render: state hooks at their initial values, no interval yet. */
    constructor (p: Process)
      requires p.Valid()
      ensures process == p && Valid() && Polling()
      ensures Snap() == Fresh(p.initialized, p.renderCalls)
      ensures !pollingArmed && phase == Created
    {
      process := p;
      status := Loading;
      errorMessage := "";
      attempts := 0;
      localInit := false;
      pollingArmed := false;
      phase := Created;
    }

    /** initializeTraffy. */
    method InitializeTraffy(env: Env)
      requires Valid()
      modifies this, process
      ensures Valid()
      ensures Snap() == Initialize(old(Snap()), env)
      ensures pollingArmed == old(pollingArmed) && phase == old(phase)
      ensures old(process.initialized) ==> process.initialized
    {
      ghost var before := Snap();
      InitializePreservesConsistency(before, env);
      if process.initialized || localInit {
        status := Success;
        return;
      }
      if !env.attached {
        status := Error;
        errorMessage := NoContainerMessage;
        return;
      }
      if !env.widgetPresent {
        status := Error;
        errorMessage := NoWidgetMessage;
        return;
      }
      attempts := attempts + 1;
      process.renderCalls := process.renderCalls + [RenderCall(MaxTasks, env.outcome)];
      match env.outcome {
        case Returned =>
          localInit := true;
          process.initialized := true;
          status := Success;
        case ThrewError(m) =>
          status := Error;
          errorMessage := InitErrorPrefix + m;
        case ThrewOther =>
          status := Error;
          errorMessage := InitErrorPrefix + UnknownErrorDetail;
      }
    }

    /** checkTraffy: initialise when the widget and the container are both there. */
    method CheckTraffy(env: Env) returns (found: bool)
      requires Valid()
      modifies this, process
      ensures Valid()
      ensures found == (env.widgetPresent && env.attached)
      ensures Snap() == if found then Initialize(old(Snap()), env) else old(Snap())
      ensures pollingArmed == old(pollingArmed) && phase == old(phase)
      ensures old(process.initialized) ==> process.initialized
    {
      if env.widgetPresent && env.attached {
        InitializeTraffy(env);
        return true;
      }
      return false;
    }

    /** The mount effect: one immediate check, and an interval only if it failed. */
    method Mount(env: Env)
      requires Valid() && Polling() && phase == Created
      modifies this, process
      ensures Valid() && Polling() && phase == Mounted
      ensures old(process.initialized) ==> process.initialized
      ensures pollingArmed == !(env.widgetPresent && env.attached)
      ensures Snap() == if pollingArmed then old(Snap()) else Initialize(old(Snap()), env)
    {
      var found := CheckTraffy(env);
      pollingArmed := !found;
      phase := Mounted;
    }

    /** One firing of the interval; the interval clears itself on the first successful check. */
    method Tick(env: Env)
      requires Valid() && Polling()
      modifies this, process
      ensures Valid() && Polling() && phase == old(phase)
      ensures old(process.initialized) ==> process.initialized
      ensures !old(pollingArmed) ==> !pollingArmed && Snap() == old(Snap())
      ensures old(pollingArmed) ==> pollingArmed == !(env.widgetPresent && env.attached)
      ensures old(pollingArmed) ==> Snap() == if pollingArmed then old(Snap()) else Initialize(old(Snap()), env)
    {
      if pollingArmed {
        var found := CheckTraffy(env);
        if found {
          pollingArmed := false;
        }
      }
    }

    /** The retry button, rendered only while the status is error. */
    method Retry(env: Env)
      requires Valid() && Polling() && phase == Mounted && status == Error
      modifies this, process
      ensures Valid() && Polling() && phase == Mounted && !pollingArmed
      ensures old(process.initialized) ==> process.initialized
      ensures Snap() == Initialize(old(Snap()), env)
    {
      assert !pollingArmed;
      InitializeTraffy(env);
    }

    /** The effect cleanup: the interval is cleared, the state is left as it is. */
    method Unmount()
      requires Valid() && Polling() && phase == Mounted
      modifies this
      ensures Valid() && Polling() && phase == Unmounted && !pollingArmed
      ensures Snap() == old(Snap())
    {
      pollingArmed := false;
      phase := Unmounted;
    }
  }

  /**
   * Any number of containers mounted one after another on one page. Each
   * round gives one container the environment of its mount check, then the
   * environments its interval firings see, then those of its retry clicks
   * (a click happens only while the error panel shows); the container is
   * unmounted before the next round. renderTasks still returns normally at
   * most once, and the latch never falls back.
   */
  method MountInTurn(p: Process, rounds: seq<(Env, seq<Env>, seq<Env>)>)
    requires p.Valid()
    modifies p
    ensures p.Valid() && ReturnedCount(p.renderCalls) <= 1
    ensures old(p.initialized) ==> p.initialized && ReturnedCount(p.renderCalls) == ReturnedCount(old(p.renderCalls))
  {
    for i := 0 to |rounds|
      invariant p.Valid()
      invariant old(p.initialized) ==> p.initialized
    {
      var (mountEnv, ticks, retries) := rounds[i];
      var c := new Container(p);
      c.Mount(mountEnv);
      for j := 0 to |ticks|
        invariant c.process == p && c.Valid() && c.Polling() && c.phase == Mounted
        invariant old(p.initialized) ==> p.initialized
      {
        c.Tick(ticks[j]);
      }
      for j := 0 to |retries|
        invariant c.process == p && c.Valid() && c.Polling() && c.phase == Mounted
        invariant old(p.initialized) ==> p.initialized
      {
        if c.status == Error {
          c.Retry(retries[j]);
        }
      }
      c.Unmount();
    }
  }

  /**
   * Two containers mounted on one page at the same time, then driven by any
   * interleaving of interval firings and retry clicks (`steps`: which
   * container acts, and the environment it sees): renderTasks still returns
   * normally at most once, and the latch never falls back.
   */
  method TwoContainers(p: Process, envA: Env, envB: Env, steps: seq<(bool, Env)>)
    requires p.Valid()
    modifies p
    ensures p.Valid() && ReturnedCount(p.renderCalls) <= 1
    ensures old(p.initialized) ==> p.initialized && ReturnedCount(p.renderCalls) == ReturnedCount(old(p.renderCalls))
  {
    var a := new Container(p);
    var b := new Container(p);
    ghost var other := b.Snap();
    a.Mount(envA);
    LatchAdvanceKeepsConsistent(other, p.initialized, p.renderCalls);
    other := a.Snap();
    b.Mount(envB);
    LatchAdvanceKeepsConsistent(other, p.initialized, p.renderCalls);
    for i := 0 to |steps|
      invariant a != b && a.process == p && b.process == p
      invariant a.Valid() && a.Polling() && a.phase == Mounted
      invariant b.Valid() && b.Polling() && b.phase == Mounted
      invariant old(p.initialized) ==> p.initialized
    {
      var (first, env) := steps[i];
      var c, d := if first then a else b, if first then b else a;
      other := d.Snap();
      if c.status == Error {
        c.Retry(env);
      } else {
        c.Tick(env);
      }
      LatchAdvanceKeepsConsistent(other, p.initialized, p.renderCalls);
    }
    a.Unmount();
    b.Unmount();
  }
}
