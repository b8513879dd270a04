/**
 * The Hello World server (NdnHelloWorldServer): answers Interests under a
 * prefix with a signed "Hello World!!!" Data packet, at most `quota` times.
 *
 * ServerState is the abstract value of a server object; the *Step functions
 * give the meaning of each callback, the class below performs them in place,
 * and the lemmas state what holds along every sequence of callbacks.
 * `responses` records every Data packet handed to the face.
 */
module Server {
  import opened Common
  import Args

  datatype Phase = Idle | Listening | Stopped

  /** A Data packet as onInterest builds it; signing is recorded, not performed. */
  datatype Data = Data(name: string, freshnessMs: Option<nat>, content: string, signed: bool)

  const HelloContent: string := "Hello World!!!"
  const FreshnessMs: nat := 1000

  /**
   * The fields of a server object. `received` mirrors the source's counter,
   * which counts only the Interests that were answered. `waitCancelled` records
   * that the signal wait was cancelled; `registered` that the prefix filter was set.
   */
  datatype ServerState = ServerState(
    prefix: string,
    quota: Option<Uint64>,
    received: nat,
    hasError: bool,
    phase: Phase,
    registered: bool,
    waitCancelled: bool,
    responses: seq<Data>)

  function Init(prefix: string): ServerState {
    ServerState(prefix, None, 0, false, Idle, false, false, [])
  }

  /** The server as main() configures it before calling run(). */
  function Configured(prefix: string, quota: Option<Uint64>): ServerState {
    Init(prefix).(quota := quota)
  }

  /** No quota is set, or fewer Interests than the quota were answered. */
  predicate UnderQuota(s: ServerState) {
    s.quota.None? || s.received < s.quota.value
  }

  /**
   * The part of run() before the event loop: a zero quota returns 0 without
   * arming the signal wait or registering the prefix; otherwise both happen.
   */
  function StartStep(s: ServerState): (r: (ServerState, Option<int>))
    requires s.phase == Idle
    ensures r.1.Some? <==> s.quota == Some(0)
    ensures r.1.Some? ==> r.1.value == ExitOk && r.0.phase == Stopped && r.0.registered == s.registered
    ensures r.1.None? ==> r.0.phase == Listening && r.0.registered
    ensures r.0.received == s.received && r.0.responses == s.responses && r.0.hasError == s.hasError
  {
    if s.quota == Some(0) then (s.(phase := Stopped), Some(ExitOk))
    else (s.(phase := Listening, registered := true), None)
  }

  /**
   * The Data answering an Interest: its name, the fixed content, and a
   * one-second freshness period when the freshness policy (an opaque
   * decision here) asks for one.
   */
  function Response(name: string, freshnessPolicy: bool): (d: Data)
    ensures d.name == name && d.content == HelloContent && d.signed
    ensures freshnessPolicy ==> d.freshnessMs == Some(1000)
    ensures !freshnessPolicy ==> d.freshnessMs.None?
  {
    Data(name, if freshnessPolicy then Some(FreshnessMs) else None, HelloContent, true)
  }

  /**
   * onInterest: under the quota, one Data with the Interest's name is signed,
   * counted and put; otherwise nothing is sent. Afterwards, once the quota is
   * met, the signal wait is cancelled.
   */
  function InterestStep(s: ServerState, name: string, freshnessPolicy: bool): (r: ServerState)
    requires s.phase == Listening
    ensures UnderQuota(s) ==>
              r.received == s.received + 1 && r.responses == s.responses + [Response(name, freshnessPolicy)]
    ensures !UnderQuota(s) ==> r.received == s.received && r.responses == s.responses
    ensures r.waitCancelled <==> s.waitCancelled || (s.quota.Some? && r.received >= s.quota.value)
    ensures r.hasError == s.hasError && r.phase == s.phase && r.quota == s.quota && r.registered == s.registered
  {
    var t := if UnderQuota(s) then
               s.(received := s.received + 1, responses := s.responses + [Response(name, freshnessPolicy)])
             else s;
    if t.quota.Some? && t.received >= t.quota.value then t.(waitCancelled := true) else t
  }

  /**
   * The signal handler, run on SIGINT/SIGTERM or when the wait is cancelled:
   * flags an error when a quota is set and not yet met, then stops.
   */
  function SignalStep(s: ServerState): (r: ServerState)
    requires s.phase == Listening
    ensures r.hasError <==> s.hasError || (s.quota.Some? && s.received < s.quota.value)
    ensures r.phase == Stopped && r.received == s.received && r.responses == s.responses
  {
    s.(hasError := s.hasError || (s.quota.Some? && s.received < s.quota.value), phase := Stopped)
  }

  /** The rest of run(): status 1 exactly when the loop threw or the error flag is set. */
  function FinishStep(s: ServerState, threw: bool): (r: (ServerState, int))
    requires threw || s.phase == Stopped
    ensures r.0.phase == Stopped
    ensures r.1 == ExitError <==> threw || s.hasError
    ensures r.1 == ExitOk <==> !threw && !s.hasError
  {
    (s.(phase := Stopped), ExitStatus(s.hasError, threw))
  }

  /** The callbacks the event loop can deliver. */
  datatype Event = Request(name: string, freshnessPolicy: bool) | Signal

  predicate Enabled(s: ServerState, e: Event) {
    s.phase == Listening
  }

  function Apply(s: ServerState, e: Event): ServerState
    requires Enabled(s, e)
  {
    match e
    case Request(name, freshnessPolicy) => InterestStep(s, name, freshnessPolicy)
    case Signal => SignalStep(s)
  }

  predicate Feasible(s: ServerState, events: seq<Event>)
    decreases |events|
  {
    |events| == 0 || (Enabled(s, events[0]) && Feasible(Apply(s, events[0]), events[1..]))
  }

  function Replay(s: ServerState, events: seq<Event>): ServerState
    requires Feasible(s, events)
    decreases |events|
  {
    if |events| == 0 then s else Replay(Apply(s, events[0]), events[1..])
  }

  /**
   * What holds of a server between callbacks: the quota bounds the answered
   * count, each answer is one recorded response carrying the fixed content
   * and a signature, the wait is cancelled exactly once the quota is met, and
   * the error flag is only ever set when stopping.
   */
  ghost predicate Valid(s: ServerState) {
    && (s.quota.Some? ==> s.received <= s.quota.value)
    && s.received == |s.responses|
    && (forall i :: 0 <= i < |s.responses| ==> s.responses[i].content == HelloContent && s.responses[i].signed)
    && (s.phase == Idle ==> s.received == 0 && !s.waitCancelled && !s.registered)
    && (s.phase == Listening ==> s.registered && (s.waitCancelled <==> s.quota.Some? && s.received >= s.quota.value))
    && (s.phase != Stopped ==> !s.hasError)
  }

  /** A server configured by main() is valid before run(). */
  lemma ConfiguredValid(prefix: string, quota: Option<Uint64>)
    ensures Valid(Configured(prefix, quota))
  {
  }

  lemma StartValid(s: ServerState)
    requires Valid(s) && s.phase == Idle
    ensures Valid(StartStep(s).0)
  {
  }

  lemma ApplyValid(s: ServerState, e: Event)
    requires Valid(s) && Enabled(s, e)
    ensures Valid(Apply(s, e))
  {
  }

  /** Every sequence of requests and signals keeps the invariant. */
  lemma {:induction false} ReplayValid(s: ServerState, events: seq<Event>)
    requires Valid(s) && Feasible(s, events)
    ensures Valid(Replay(s, events))
    ensures Replay(s, events).quota == s.quota
    decreases |events|
  {
    if |events| > 0 {
      ApplyValid(s, events[0]);
      ReplayValid(Apply(s, events[0]), events[1..]);
    }
  }

  /** The state after run() started a configured server and the loop delivered `events`. */
  function RunFrom(prefix: string, quota: Option<Uint64>, events: seq<Event>): ServerState
    requires Feasible(StartStep(Configured(prefix, quota)).0, events)
  {
    Replay(StartStep(Configured(prefix, quota)).0, events)
  }

  /** With a quota of N, however requests arrive, the server answers at most N of them. */
  lemma ServedNeverExceedsQuota(prefix: string, n: Uint64, events: seq<Event>)
    requires Feasible(StartStep(Configured(prefix, Some(n))).0, events)
    ensures RunFrom(prefix, Some(n), events).received <= n
    ensures |RunFrom(prefix, Some(n), events).responses| <= n
  {
    ConfiguredValid(prefix, Some(n));
    StartValid(Configured(prefix, Some(n)));
    ReplayValid(StartStep(Configured(prefix, Some(n))).0, events);
  }

  /** Once the quota is met, no later request gets a response and the count stays put. */
  lemma {:induction false} NothingServedAfterQuota(s: ServerState, events: seq<Event>)
    requires Feasible(s, events)
    requires s.quota.Some? && s.received >= s.quota.value
    ensures Replay(s, events).responses == s.responses
    ensures Replay(s, events).received == s.received
    decreases |events|
  {
    if |events| > 0 {
      NothingServedAfterQuota(Apply(s, events[0]), events[1..]);
    }
  }

  /**
   * The signal handler ends the run with status 1 exactly when a quota is set
   * and was not met; without a quota, or with it met, the status is 0.
   */
  lemma SignalExitStatus(s: ServerState)
    requires Valid(s) && s.phase == Listening
    ensures FinishStep(SignalStep(s), false).1 == ExitError <==> s.quota.Some? && s.received < s.quota.value
  {
  }

  /**
   * Reaching the quota cancels the wait, whose handler then stops the server
   * cleanly: the run ends with status 0.
   */
  lemma QuotaReachedStopsClean(s: ServerState, name: string, freshnessPolicy: bool)
    requires Valid(s) && s.phase == Listening
    requires InterestStep(s, name, freshnessPolicy).waitCancelled
    ensures FinishStep(SignalStep(InterestStep(s, name, freshnessPolicy)), false).1 == ExitOk
  {
    ApplyValid(s, Request(name, freshnessPolicy));
  }

  /** A zero quota: run() returns 0 at once, registers nothing, answers nothing, and no callback can run. */
  lemma ZeroQuotaServesNothing(prefix: string)
    ensures var (s, status) := StartStep(Configured(prefix, Some(0)));
            status == Some(ExitOk) && !s.registered && s.responses == [] && forall e :: !Enabled(s, e)
  {
  }

  /**
   * The server object. Each method is one callback of the source and is
   * specified by the step function above; `responses` is ghost bookkeeping
   * (what was handed to the face).
   */
  class NdnHelloWorldServer {
    const prefix: string
    var maxInterests: Option<Uint64>
    var received: nat
    var hasError: bool
    var phase: Phase
    var registered: bool
    var waitCancelled: bool
    ghost var responses: seq<Data>

    ghost function State(): ServerState
      reads this
    {
      ServerState(prefix, maxInterests, received, hasError, phase, registered, waitCancelled, responses)
    }

    constructor (prefix: string)
      ensures State() == Init(prefix)
    {
      this.prefix := prefix;
      maxInterests := None;
      received := 0;
      hasError := false;
      phase := Idle;
      registered, waitCancelled := false, false;
      responses := [];
    }

    method SetMaximumInterests(n: Uint64)
      modifies this`maxInterests
      ensures State() == old(State()).(quota := Some(n))
    {
      maxInterests := Some(n);
    }

    /** run() up to the event loop: returns a status only when the quota is zero. */
    method Run() returns (early: Option<int>)
      requires phase == Idle
      modifies this
      ensures (State(), early) == StartStep(old(State()))
    {
      if maxInterests == Some(0) {
        phase := Stopped;
        return Some(ExitOk);
      }
      registered := true;
      phase := Listening;
      early := None;
    }

    method OnInterest(name: string, freshnessPolicy: bool)
      requires phase == Listening
      modifies this
      ensures State() == InterestStep(old(State()), name, freshnessPolicy)
    {
      if maxInterests.None? || received < maxInterests.value {
        var data := Data(name, None, HelloContent, false);
        if freshnessPolicy {
          data := data.(freshnessMs := Some(FreshnessMs));
        }
        data := data.(signed := true);
        received := received + 1;
        responses := responses + [data];
      }
      if maxInterests.Some? && received >= maxInterests.value {
        waitCancelled := true;
      }
    }

    /** The signal handler lambda: flags an unmet quota, then stop(). */
    method OnSignal()
      requires phase == Listening
      modifies this
      ensures State() == SignalStep(old(State()))
    {
      if maxInterests.Some? && received < maxInterests.value {
        hasError := true;
      }
      phase := Stopped;
    }

    /** run() after the event loop: it returned normally (after stop) or threw. */
    method Finish(threw: bool) returns (status: int)
      requires threw || phase == Stopped
      modifies this
      ensures (State(), status) == FinishStep(old(State()), threw)
    {
      phase := Stopped;
      status := if threw || hasError then ExitError else ExitOk;
    }
  }

  /**
   * main() after option parsing: a negative --count exits with 2; otherwise
   * the server is configured and run() starts. The result is the status when
   * main() returns before the event loop, and None when the loop starts.
   */
  method ServerMain(prefix: string, count: Option<Int64>) returns (status: Option<int>, server: NdnHelloWorldServer?)
    ensures status == Some(ExitUsage) <==> count.Some? && count.value < 0
    ensures status == Some(ExitOk) <==> count == Some(0)
    ensures status.Some? ==> status.value == ExitUsage || status.value == ExitOk
    ensures status.None? ==>
              var checked := Args.CheckServerArgs(count);
              checked.Run? && server != null && server.State() == StartStep(Configured(prefix, checked.config)).0
  {
    var checked := Args.CheckServerArgs(count);
    if checked.Exit? {
      return Some(checked.status), null;
    }
    server := new NdnHelloWorldServer(prefix);
    if checked.config.Some? {
      server.SetMaximumInterests(checked.config.value);
    }
    status := server.Run();
  }

  /** Delivering one more callback in front of a feasible sequence. */
  lemma {:induction false} ReplayCons(s: ServerState, e: Event, rest: seq<Event>)
    requires Enabled(s, e) && Feasible(Apply(s, e), rest)
    ensures Feasible(s, [e] + rest) && Replay(s, [e] + rest) == Replay(Apply(s, e), rest)
  {
    assert ([e] + rest)[0] == e && ([e] + rest)[1..] == rest;
  }

  /**
   * A server with a quota of two receiving three Interests: the first two are
   * answered with their own names, the second cancels the wait, the third
   * gets nothing, and the cancelled wait's handler ends the run with status 0.
   */
  lemma QuotaTwoOfThree(prefix: string)
    ensures var events := [Request("/hello/0", true), Request("/hello/1", true), Request("/hello/2", true), Signal];
            Feasible(StartStep(Configured(prefix, Some(2))).0, events) &&
            var s := RunFrom(prefix, Some(2), events);
            s.responses == [Response("/hello/0", true), Response("/hello/1", true)] &&
            s.waitCancelled && FinishStep(s, false).1 == ExitOk
  {
    var s0 := StartStep(Configured(prefix, Some(2))).0;
    var s1 := Apply(s0, Request("/hello/0", true));
    var s2 := Apply(s1, Request("/hello/1", true));
    var s3 := Apply(s2, Request("/hello/2", true));
    ReplayCons(s3, Signal, []);
    ReplayCons(s2, Request("/hello/2", true), [Signal]);
    ReplayCons(s1, Request("/hello/1", true), [Request("/hello/2", true), Signal]);
    ReplayCons(s0, Request("/hello/0", true), [Request("/hello/1", true), Request("/hello/2", true), Signal]);
  }

  /** A termination signal before the quota is met ends the run with status 1. */
  lemma EarlySignalIsError(prefix: string)
    ensures var events := [Request("/hello/0", false), Signal];
            Feasible(StartStep(Configured(prefix, Some(2))).0, events) &&
            var s := RunFrom(prefix, Some(2), events);
            |s.responses| == 1 && FinishStep(s, false).1 == ExitError
  {
    var s0 := StartStep(Configured(prefix, Some(2))).0;
    var s1 := Apply(s0, Request("/hello/0", false));
    ReplayCons(s1, Signal, []);
    ReplayCons(s0, Request("/hello/0", false), [Signal]);
  }
}
