/**
 * The handshake between a client of the library and the scheduler: a client which has no more
 * work signals completion and blocks, and the scheduler releases it when it next lets it run.
 *
 * Two eventfds are shared. `unread` is the value of the first one, which the scheduler reads and
 * so empties. The second one is a semaphore: `tokens` of the process in `Model`.
 */
module Handshake {
  import opened Options
  import opened Model

  // ----- The client library -----

  /** How many of its three numbers the library converts from malformed parameters. */
  type Few = n: nat | n < 3

  /** What the library finds in its environment: the flag tells whether there is an initialization. */
  datatype Env = Given(init: bool) | Missing | Malformed(read: Few)

  datatype Error = ENOKEY | EBADMSG | EWOULDBLOCK

  /** A call returns at once, or goes on to signal completion and block. */
  datatype Outcome = Returns(error: Option<Error>) | Signals

  datatype Call = Init | Completed | InitializationCompleted

  /** `sends` and `receives`: the descriptor to signal through and the one to block on have been set. */
  datatype Library = Library(ran: bool, sends: bool, receives: bool, pending: bool)

  /** The library when the client is launched: its static variables are zero. */
  const FRESH := Library(false, false, false, false)

  function InitCall(l: Library, env: Env): (Library, Outcome) {
    match env
    case Given(init) => (Library(true, true, true, init), Returns(None))
    case Missing => (l.(ran := true), Returns(Some(ENOKEY)))
    case Malformed(read) =>
      (l.(ran := true, sends := l.sends || read > 0, receives := l.receives || read > 1), Returns(Some(EBADMSG)))
  }

  function CompletedCall(l: Library, env: Env): (Library, Outcome) {
    var (m, r) := if l.ran then (l, Returns(None)) else InitCall(l, env);
    if r != Returns(None) then (m, r)
    else if m.pending then (m, Returns(None))
    else (m, Signals)
  }

  function InitializationCompletedCall(l: Library, env: Env): (Library, Outcome) {
    var (m, r) := if l.ran then (l, Returns(None)) else InitCall(l, env);
    if r != Returns(None) then (m, r)
    else if !m.pending then (m, Returns(Some(EWOULDBLOCK)))
    else CompletedCall(m.(pending := false), env)
  }

  function CallEffect(l: Library, env: Env, c: Call): (Library, Outcome) {
    match c
    case Init => InitCall(l, env)
    case Completed => CompletedCall(l, env)
    case InitializationCompleted => InitializationCompletedCall(l, env)
  }

  /** The static variables of the library, and its calls up to the point where they would block. */
  class Statics {
    var demosInitRan: bool
    /** Whether `fd_completed` and `fd_new_period` have been stored. */
    var completedSet: bool
    var newPeriodSet: bool
    var initializationPending: bool

    function Snap(): Library
      reads this
    {
      Library(demosInitRan, completedSet, newPeriodSet, initializationPending)
    }

    constructor ()
      ensures Snap() == FRESH
    {
      demosInitRan := false;
      completedSet := false;
      newPeriodSet := false;
      initializationPending := false;
    }

    method DemosInit(env: Env) returns (r: Outcome)
      modifies this
      ensures (Snap(), r) == CallEffect(old(Snap()), env, Init)
      ensures r.Returns?
    {
      demosInitRan := true;
      if env.Missing? {
        return Returns(Some(ENOKEY));
      }
      var read := if env.Given? then 3 else env.read;
      if read > 0 {
        completedSet := true;
      }
      if read > 1 {
        newPeriodSet := true;
      }
      if read != 3 {
        return Returns(Some(EBADMSG));
      }
      initializationPending := env.init;
      r := Returns(None);
    }

    method DemosCompleted(env: Env) returns (r: Outcome)
      modifies this
      ensures (Snap(), r) == CallEffect(old(Snap()), env, Completed)
      ensures r.Signals? ==> demosInitRan && !initializationPending
    {
      if !demosInitRan {
        var s := DemosInit(env);
        if s != Returns(None) {
          return s;
        }
      }
      if initializationPending {
        return Returns(None);
      }
      r := Signals;
    }

    method DemosInitializationCompleted(env: Env) returns (r: Outcome)
      modifies this
      ensures (Snap(), r) == CallEffect(old(Snap()), env, InitializationCompleted)
      ensures r.Signals? ==> demosInitRan && !initializationPending
    {
      if !demosInitRan {
        var s := DemosInit(env);
        if s != Returns(None) {
          return s;
        }
      }
      if !initializationPending {
        return Returns(Some(EWOULDBLOCK));
      }
      initializationPending := false;
      r := DemosCompleted(env);
    }
  }

  /** The static variables after the first `k` calls of a client. */
  function After(env: Env, calls: seq<Call>, k: nat): Library
    requires k <= |calls|
  {
    if k == 0 then FRESH else CallEffect(After(env, calls, k - 1), env, calls[k - 1]).0
  }

  /** What the `k`-th call leaves behind, and what it comes to. */
  function EffectOf(env: Env, calls: seq<Call>, k: nat): (Library, Outcome)
    requires k < |calls|
  {
    CallEffect(After(env, calls, k), env, calls[k])
  }

  /** The `k`-th call goes on to write or to block, and one of the descriptors was never set. */
  predicate SignalsAstray(env: Env, calls: seq<Call>, k: nat)
    requires k < |calls|
  {
    var (l, r) := EffectOf(env, calls, k);
    r.Signals? && !(l.sends && l.receives)
  }

  predicate NoneBetween<T(==)>(s: seq<T>, e: T, i: int, j: int) {
    forall m :: i < m < j && 0 <= m < |s| ==> s[m] != e
  }

  /** `e` has come, and `stop` not after it, before place `k`. */
  predicate Since<T(==)>(s: seq<T>, e: T, stop: T, k: int) {
    exists m :: 0 <= m < k && m < |s| && s[m] == e && NoneBetween(s, stop, m, k)
  }

  lemma SinceStep<T>(s: seq<T>, e: T, stop: T, k: nat)
    requires 0 < k <= |s| && e != stop
    ensures Since(s, e, stop, k) <==> s[k - 1] == e || (s[k - 1] != stop && Since(s, e, stop, k - 1))
  {
    if m :| 0 <= m < k && m < |s| && s[m] == e && NoneBetween(s, stop, m, k) {
      assert m < k - 1 ==> s[k - 1] != stop && NoneBetween(s, stop, m, k - 1);
    }
    if m :| 0 <= m < k - 1 && m < |s| && s[m] == e && NoneBetween(s, stop, m, k - 1) {
      assert s[k - 1] != stop ==> NoneBetween(s, stop, m, k);
    }
    if s[k - 1] == e {
      assert NoneBetween(s, stop, k - 1, k);
    }
  }

  /** The initialization is told to be complete, and `demos_init` has not been called since. */
  predicate Told(calls: seq<Call>, k: int) {
    Since(calls, InitializationCompleted, Init, k)
  }

  lemma {:induction false} AfterCalls(env: Env, calls: seq<Call>, k: nat)
    requires k <= |calls|
    ensures var l := After(env, calls, k);
            && l.ran == (k > 0)
            && l.sends == (k > 0 && (env.Given? || (env.Malformed? && env.read > 0)))
            && l.receives == (k > 0 && (env.Given? || (env.Malformed? && env.read > 1)))
            && l.pending == (k > 0 && env == Given(true) && !Told(calls, k))
  {
    hide Told;
    if k > 0 {
      AfterCalls(env, calls, k - 1);
      ToldStep(calls, k);
    }
  }

  lemma ToldStep(calls: seq<Call>, k: nat)
    requires 0 < k <= |calls|
    ensures Told(calls, k) <==> calls[k - 1] == InitializationCompleted || (calls[k - 1] != Init && Told(calls, k - 1))
    ensures !Told(calls, 0)
  {
    hide Since;
    SinceStep(calls, InitializationCompleted, Init, k);
    NotAtFirst(calls);
  }

  lemma NotAtFirst(calls: seq<Call>)
    ensures !Told(calls, 0)
  {
  }

  /** Too few numbers are read for both descriptors. */
  predicate TooFew(env: Env) {
    env.Missing? || (env.Malformed? && env.read < 2)
  }

  /**
   * A failed `demos_init` is not repeated: some call signals or blocks through a descriptor which
   * was never set iff the parameters are missing or hold fewer than two numbers, and
   * `demos_completed` is called again after the first call, which reports the failure.
   */
  lemma SignalsAstrayIff(env: Env, calls: seq<Call>)
    ensures (exists k :: 0 <= k < |calls| && SignalsAstray(env, calls, k)) <==>
            TooFew(env) && exists k :: 0 < k < |calls| && calls[k] == Completed
    ensures !env.Given? && calls != [] ==> var r := CallEffect(FRESH, env, calls[0]).1; r.Returns? && r.error.Some?
  {
    forall k | 0 <= k < |calls|
      ensures SignalsAstray(env, calls, k) <==> TooFew(env) && k > 0 && calls[k] == Completed
    {
      AstrayAt(env, calls, k);
    }
  }

  lemma AstrayAt(env: Env, calls: seq<Call>, k: nat)
    requires k < |calls|
    ensures SignalsAstray(env, calls, k) <==> TooFew(env) && k > 0 && calls[k] == Completed
  {
    hide Told;
    AfterCalls(env, calls, k);
  }

  /** With malformed parameters of two numbers a failed library signals all the same, and properly. */
  lemma TwoNumbersSuffice(calls: seq<Call>, k: nat)
    requires k < |calls|
    ensures var (l, r) := EffectOf(Malformed(2), calls, k);
            r.Signals? <==> k > 0 && calls[k] == Completed
    ensures !SignalsAstray(Malformed(2), calls, k)
  {
    hide Told;
    AfterCalls(Malformed(2), calls, k);
  }

  /**
   * Which calls of a properly launched client signal: a `demos_completed` unless an initialization
   * is still pending, and the call which ends it. So a repeated `demos_init` silences a client with
   * an initialization until it tells once more that this is complete.
   */
  lemma SignalsIff(init: bool, calls: seq<Call>, k: nat)
    requires k < |calls|
    ensures EffectOf(Given(init), calls, k).1.Signals? <==>
            if init && !Told(calls, k) then calls[k] == InitializationCompleted else calls[k] == Completed
  {
    hide Told;
    AfterCalls(Given(init), calls, k);
    NotAtFirst(calls);
  }

  /**
   * What each call of any sequence of calls comes to. The call which first reads the environment
   * reports what is wrong with it, and so does every `demos_init`; while an initialization is
   * pending `demos_completed` is ignored and `demos_initialization_completed` signals, otherwise
   * the one signals and the other one would block.
   */
  lemma OutcomeIs(env: Env, calls: seq<Call>, k: nat)
    requires k < |calls|
    ensures var (c, r) := (calls[k], EffectOf(env, calls, k).1);
            if c == Init || (k == 0 && !env.Given?) then
              match env
              case Given(_) => r == Returns(None)
              case Missing => r == Returns(Some(ENOKEY))
              case Malformed(_) => r == Returns(Some(EBADMSG))
            else if env == Given(true) && !Told(calls, k) then r == if c == Completed then Returns(None) else Signals
            else r == if c == Completed then Signals else Returns(Some(EWOULDBLOCK))
  {
    hide Told;
    AfterCalls(env, calls, k);
    NotAtFirst(calls);
  }

  // ----- Client and scheduler together -----

  /** A single-threaded client computes, is about to write its signal, or waits for its token. */
  datatype Pc = Computes | Writes | Waits

  /** `sent` and `received` count the signals written and the tokens taken by the client. */
  datatype State = State(library: Library, pc: Pc, unread: nat, proc: Proc, sent: nat, received: nat)

  datatype Step =
    | Calls(call: Call)
    | Write
    | Read
    | Dispatch
    | Suspend
    | Release

  /** A frozen client makes no step; the scheduler reads its eventfd only when there is a signal. */
  predicate Can(s: State, e: Step) {
    match e
    case Calls(_) => !s.proc.frozen && s.pc.Computes?
    case Write => !s.proc.frozen && s.pc.Writes?
    case Read => !s.proc.frozen && s.pc.Waits? && s.proc.tokens > 0
    case Dispatch => s.unread > 0
    case Suspend => true
    case Release => true
  }

  function Do(s: State, init: bool, e: Step): State
    requires Can(s, e)
  {
    match e
    case Calls(c) =>
      var (l, r) := CallEffect(s.library, Given(init), c);
      s.(library := l, pc := if r.Signals? then Writes else Computes)
    case Write => s.(pc := Waits, unread := s.unread + 1, sent := s.sent + 1)
    case Read => s.(pc := Computes, proc := s.proc.(tokens := s.proc.tokens - 1), received := s.received + 1)
    case Dispatch => s.(unread := 0, proc := s.proc.(signalled := true))
    case Suspend => s.(proc := s.proc.(frozen := true))
    case Release => s.(proc := Resume(s.proc))
  }

  /** A process just launched, frozen or not. */
  predicate Launched(s: State) {
    && s.library == FRESH && s.pc == Computes && s.unread == 0 && s.sent == 0 && s.received == 0
    && !s.proc.signalled && s.proc.tokens == 0
  }

  /** An interleaving of client and scheduler steps. `init`: the process has an initialization. */
  ghost predicate IsRun(init: bool, steps: seq<Step>, states: seq<State>) {
    && |states| == |steps| + 1
    && Launched(states[0])
    && forall k :: 0 <= k < |steps| ==> Can(states[k], steps[k]) && states[k + 1] == Do(states[k], init, steps[k])
  }

  /** Wake-ups on their way to the client: an unread signal, a noted signal, a token. */
  function InFlight(s: State): nat {
    s.unread + (if s.proc.signalled then 1 else 0) + s.proc.tokens
  }

  ghost predicate Balanced(s: State, init: bool) {
    && InFlight(s) == (if s.pc.Waits? then 1 else 0)
    && s.sent == s.received + InFlight(s)
    && (s.library.ran ==> s.library.sends && s.library.receives)
    && (s.pc.Writes? ==> s.library.ran && !s.library.pending)
    && (s.library.pending ==> init)
  }

  /**
   * Token conservation: in every state of every interleaving a waiting client has exactly one
   * wake-up in flight and any other client has none; every signal is matched by one release.
   */
  lemma {:induction false} TokenConservation(init: bool, steps: seq<Step>, states: seq<State>, k: nat)
    requires IsRun(init, steps, states) && k <= |steps|
    ensures Balanced(states[k], init)
  {
    if k > 0 {
      TokenConservation(init, steps, states, k - 1);
      assert Can(states[k - 1], steps[k - 1]);
    }
  }

  /** No wake-up is lost: reading the signal, if it is still unread, and one release are enough. */
  lemma NeverStuck(init: bool, steps: seq<Step>, states: seq<State>, k: nat)
    requires IsRun(init, steps, states) && k <= |steps| && states[k].pc.Waits?
    ensures var s := states[k];
            var noted := if Can(s, Dispatch) then Do(s, init, Dispatch) else s;
            && Can(noted, Release)
            && Can(Do(noted, init, Release), Read)
            && InFlight(Do(Do(noted, init, Release), init, Read)) == 0
  {
    TokenConservation(init, steps, states, k);
  }

  /** After the signal was noted the next release gives the client its token, and it keeps it. */
  lemma {:induction false} ReleaseLasts(init: bool, steps: seq<Step>, states: seq<State>, r: nat, m: nat)
    requires IsRun(init, steps, states) && r < m <= |steps|
    requires states[r].proc.signalled && steps[r] == Release && NoneBetween(steps, Read, r, m)
    ensures var s := states[m];
            s.pc.Waits? && s.proc.tokens == 1 && InFlight(s) == 1 && (Can(s, Read) <==> !s.proc.frozen)
  {
    TokenConservation(init, steps, states, m - 1);
    TokenConservation(init, steps, states, m);
    assert Can(states[m - 1], steps[m - 1]);
    if m > r + 1 {
      ReleaseLasts(init, steps, states, r, m - 1);
      assert steps[m - 1] != Read;
    }
  }

  ghost predicate Happened(steps: seq<Step>, e: Step, i: int, j: int) {
    exists m :: i < m < j && 0 <= m < |steps| && steps[m] == e
  }

  ghost predicate NotedThenReleased(steps: seq<Step>, i: int, j: int) {
    exists m :: i < m < j && 0 <= m < |steps| && steps[m] == Release && Happened(steps, Dispatch, i, m)
  }

  /** What a client which waits since step `j` can rely on at state `m`. */
  lemma {:induction false} WaitingSince(init: bool, steps: seq<Step>, states: seq<State>, j: nat, m: nat)
    requires IsRun(init, steps, states) && j < m <= |steps|
    requires steps[j] == Write && NoneBetween(steps, Read, j, m)
    ensures states[m].pc.Waits?
    ensures states[m].proc.signalled ==> Happened(steps, Dispatch, j, m)
    ensures states[m].proc.tokens > 0 ==> NotedThenReleased(steps, j, m)
  {
    TokenConservation(init, steps, states, m - 1);
    var e := steps[m - 1];
    assert Can(states[m - 1], e);
    if m > j + 1 {
      WaitingSince(init, steps, states, j, m - 1);
      assert e != Read;
      if e == Dispatch {
        assert steps[m - 1] == Dispatch;
      } else if states[m].proc.signalled {
        assert Happened(steps, Dispatch, j, m - 1);
        var d :| j < d < m - 1 && 0 <= d < |steps| && steps[d] == Dispatch;
      }
      if e == Release && states[m - 1].proc.signalled {
        assert steps[m - 1] == Release && Happened(steps, Dispatch, j, m - 1);
      } else if states[m].proc.tokens > 0 {
        var r :| j < r < m - 1 && 0 <= r < |steps| && steps[r] == Release && Happened(steps, Dispatch, j, r);
      }
    }
  }

  /**
   * A client comes back from `demos_completed` only after the scheduler noted this very signal
   * and then let the process run again.
   */
  lemma BlocksUntilReleased(init: bool, steps: seq<Step>, states: seq<State>, j: nat, k: nat)
    requires IsRun(init, steps, states) && j < k < |steps|
    requires steps[j] == Write && steps[k] == Read && NoneBetween(steps, Read, j, k)
    ensures NotedThenReleased(steps, j, k)
  {
    WaitingSince(init, steps, states, j, k);
    assert Can(states[k], Read);
  }

  /** The client has told that its initialization is complete. */
  ghost predicate HasInitialized(steps: seq<Step>, k: int) {
    exists m :: 0 <= m < k && m < |steps| && steps[m] == Calls(InitializationCompleted)
  }

  /** It has told so since it last called `demos_init` itself, if it ever did. */
  ghost predicate Initialized(steps: seq<Step>, k: int) {
    Since(steps, Calls(InitializationCompleted), Calls(Init), k)
  }

  lemma InitializedStep(steps: seq<Step>, k: nat)
    requires 0 < k <= |steps|
    ensures Initialized(steps, k) <==>
            steps[k - 1] == Calls(InitializationCompleted) || (steps[k - 1] != Calls(Init) && Initialized(steps, k - 1))
    ensures Initialized(steps, k) || HasInitialized(steps, k - 1) ==> HasInitialized(steps, k)
  {
    SinceStep(steps, Calls(InitializationCompleted), Calls(Init), k);
  }

  /**
   * A process with an initialization signals nothing before it tells that the initialization is
   * complete: until then its calls of `demos_completed` have no effect, and again so whenever it
   * calls `demos_init`.
   */
  lemma {:induction false} InitializationFirst(steps: seq<Step>, states: seq<State>, k: nat)
    requires IsRun(true, steps, states) && k <= |steps|
    ensures !states[k].library.ran ==> !Initialized(steps, k)
    ensures states[k].library.ran ==> (states[k].library.pending <==> !Initialized(steps, k))
    ensures states[k].pc.Writes? ==> Initialized(steps, k)
    ensures states[k].pc.Writes? || states[k].sent > 0 ==> HasInitialized(steps, k)
  {
    hide Initialized, HasInitialized;
    if k > 0 {
      InitializationFirst(steps, states, k - 1);
      InitializedStep(steps, k);
      assert Can(states[k - 1], steps[k - 1]);
    } else {
      NothingAtFirst(steps);
    }
  }

  lemma NothingAtFirst(steps: seq<Step>)
    ensures !Initialized(steps, 0)
  {
  }
}
