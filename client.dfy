/**
 * The Hello World client (NdnHelloWorldClient): a timer-driven Interest
 * scheduler with a nonce pool and sent/received accounting.
 *
 * The event loop runs one callback at a time, so each callback is one step.
 * ClientState is the abstract value of a client object; the *Step functions
 * give the meaning of each callback, the class below performs them in place,
 * and the lemmas state what holds along every sequence of callbacks.
 *
 * The network face is abstract: `log` records every Interest the face
 * accepted, with the outcome the face has delivered for it so far.
 */
module Client {
  import opened Common
  import opened NoncePool
  import Args

  datatype Phase = Idle | Running | Stopped

  /** An Interest as sendInterest builds it: prefix plus sequence number, one nonce, fixed lifetime and flags. */
  datatype Interest = Interest(prefix: string, seqNo: nat, nonce: Word32, lifetimeMs: nat, canBePrefix: bool, mustBeFresh: bool)

  /** What the face has reported for an expressed Interest. */
  datatype Outcome = Pending | Answered | Nacked | TimedOut

  datatype Dispatch = Dispatch(interest: Interest, outcome: Outcome)

  const DefaultIntervalMs: nat := 1000
  const InterestLifetimeMs: nat := 1000

  /**
   * The fields of a client object. `origin` is the time at which run() created
   * the timer, `expiry` the timer's current expiry and `armed` whether a wait
   * on it is pending; all times are in milliseconds.
   */
  datatype ClientState = ClientState(
    prefix: string,
    quota: Option<Uint64>,
    intervalMs: nat,
    nonces: seq<Word32>,
    sent: nat,
    received: nat,
    hasError: bool,
    phase: Phase,
    origin: int,
    expiry: int,
    armed: bool,
    log: seq<Dispatch>)

  /** A freshly constructed client: no quota, the default interval, nothing sent. */
  function Init(prefix: string): ClientState {
    ClientState(prefix, None, DefaultIntervalMs, [], 0, 0, false, Idle, 0, 0, false, [])
  }

  /** The client as main() configures it before calling run(). */
  function Configured(prefix: string, quota: Option<Uint64>, intervalMs: nat): ClientState {
    Init(prefix).(quota := quota, intervalMs := intervalMs)
  }

  predicate QuotaReached(s: ClientState) {
    s.quota.Some? && s.sent >= s.quota.value
  }

  /**
   * The part of run() before the event loop: a zero quota ends at once with
   * status 0; otherwise the timer is created to expire one interval from now.
   */
  function StartStep(s: ClientState, now: int): (r: (ClientState, Option<int>))
    requires s.phase == Idle
    ensures r.1.Some? <==> s.quota == Some(0)
    ensures r.1.Some? ==> r.1.value == ExitOk && r.0.phase == Stopped
    ensures r.1.None? ==> r.0.phase == Running && r.0.armed && r.0.expiry == now + s.intervalMs
    ensures r.0.sent == s.sent && r.0.received == s.received && r.0.nonces == s.nonces && r.0.log == s.log
  {
    if s.quota == Some(0) then (s.(phase := Stopped), Some(ExitOk))
    else (s.(phase := Running, origin := now, expiry := now + s.intervalMs, armed := true), None)
  }

  /** A timer callback can run: a wait is pending, and if an Interest is due the generator yields a fresh nonce. */
  predicate CanSend(s: ClientState, candidates: seq<Word32>) {
    s.phase == Running && s.armed && (QuotaReached(s) || HasFresh(Cleared(s.nonces), candidates))
  }

  /**
   * sendInterest: at the quota the callback returns without sending or
   * rearming. Otherwise the current sent count becomes the sequence number
   * and is incremented, a nonce is drawn, the Interest is expressed (unless
   * the face throws, which is caught and only logged) and the timer is
   * rearmed exactly one interval after its previous expiry.
   */
  function SendStep(s: ClientState, candidates: seq<Word32>, faceThrows: bool): (r: ClientState)
    requires CanSend(s, candidates)
    ensures QuotaReached(s) ==>
              r.sent == s.sent && r.nonces == s.nonces && r.log == s.log && r.expiry == s.expiry && !r.armed
    ensures !QuotaReached(s) ==>
              r.sent == s.sent + 1 && r.expiry == s.expiry + s.intervalMs && r.armed &&
              r.log == (if faceThrows then s.log else s.log + [Dispatch(Interest(s.prefix, s.sent, Draw(s.nonces, candidates).0, InterestLifetimeMs, false, false), Pending)])
    ensures !QuotaReached(s) ==> r.nonces == Draw(s.nonces, candidates).1
    ensures r.received == s.received && r.hasError == s.hasError && r.phase == s.phase
    ensures r.quota == s.quota && r.intervalMs == s.intervalMs && r.origin == s.origin && r.prefix == s.prefix
  {
    if QuotaReached(s) then s.(armed := false)
    else
      var (nonce, pool) := Draw(s.nonces, candidates);
      var interest := Interest(s.prefix, s.sent, nonce, InterestLifetimeMs, false, false);
      s.(sent := s.sent + 1,
         nonces := pool,
         log := if faceThrows then s.log else s.log + [Dispatch(interest, Pending)],
         expiry := s.expiry + s.intervalMs,
         armed := true)
  }

  /** The face can still deliver an outcome for the k-th expressed Interest. */
  predicate Awaiting(s: ClientState, k: nat) {
    s.phase == Running && k < |s.log| && s.log[k].outcome == Pending
  }

  function Resolve(s: ClientState, k: nat, o: Outcome): ClientState
    requires k < |s.log|
  {
    s.(log := s.log[k := s.log[k].(outcome := o)])
  }

  /** onData: the one callback that changes a counter; received grows by exactly one. */
  function DataStep(s: ClientState, k: nat): (r: ClientState)
    requires Awaiting(s, k)
    ensures r.received == s.received + 1 && r.sent == s.sent && r.hasError == s.hasError
    ensures |r.log| == |s.log| && r.log[k].outcome == Answered
    ensures r.nonces == s.nonces && r.expiry == s.expiry && r.armed == s.armed && r.phase == s.phase
    ensures r.quota == s.quota && r.intervalMs == s.intervalMs && r.origin == s.origin && r.prefix == s.prefix
    ensures forall j :: 0 <= j < |s.log| && j != k ==> r.log[j] == s.log[j]
    ensures r.log[k].interest == s.log[k].interest
  {
    Resolve(s, k, Answered).(received := s.received + 1)
  }

  /** onNack: only logs; counters and the error flag stay as they were. */
  function NackStep(s: ClientState, k: nat): (r: ClientState)
    requires Awaiting(s, k)
    ensures r.received == s.received && r.sent == s.sent && r.hasError == s.hasError
    ensures |r.log| == |s.log| && r.log[k].outcome == Nacked
    ensures r.nonces == s.nonces && r.expiry == s.expiry && r.armed == s.armed && r.phase == s.phase
    ensures r.quota == s.quota && r.intervalMs == s.intervalMs && r.origin == s.origin && r.prefix == s.prefix
    ensures forall j :: 0 <= j < |s.log| && j != k ==> r.log[j] == s.log[j]
    ensures r.log[k].interest == s.log[k].interest
  {
    Resolve(s, k, Nacked)
  }

  /** onTimeout: only logs; counters and the error flag stay as they were. */
  function TimeoutStep(s: ClientState, k: nat): (r: ClientState)
    requires Awaiting(s, k)
    ensures r.received == s.received && r.sent == s.sent && r.hasError == s.hasError
    ensures |r.log| == |s.log| && r.log[k].outcome == TimedOut
    ensures r.nonces == s.nonces && r.expiry == s.expiry && r.armed == s.armed && r.phase == s.phase
    ensures r.quota == s.quota && r.intervalMs == s.intervalMs && r.origin == s.origin && r.prefix == s.prefix
    ensures forall j :: 0 <= j < |s.log| && j != k ==> r.log[j] == s.log[j]
    ensures r.log[k].interest == s.log[k].interest
  {
    Resolve(s, k, TimedOut)
  }

  /** stop (run by the signal handler): flags an error when sent and received differ, never clears the flag, and halts the loop. */
  function StopStep(s: ClientState): (r: ClientState)
    requires s.phase == Running
    ensures r.hasError <==> s.hasError || s.sent != s.received
    ensures r.phase == Stopped && r.sent == s.sent && r.received == s.received
  {
    s.(hasError := s.hasError || s.sent != s.received, phase := Stopped, armed := false)
  }

  /**
   * The rest of run(): the event loop returns normally only after stop(); an
   * exception escaping it also stops the loop. The status is 1 exactly when
   * the loop threw or the error flag is set.
   */
  function FinishStep(s: ClientState, threw: bool): (r: (ClientState, int))
    requires threw || s.phase == Stopped
    ensures r.0.phase == Stopped
    ensures r.1 == ExitError <==> threw || s.hasError
    ensures r.1 == ExitOk <==> !threw && !s.hasError
  {
    (s.(phase := Stopped, armed := false), ExitStatus(s.hasError, threw))
  }

  /** The callbacks the event loop can deliver. */
  datatype Event =
    | Tick(candidates: seq<Word32>, faceThrows: bool)
    | DataFor(k: nat)
    | NackFor(k: nat)
    | TimeoutFor(k: nat)
    | Signal

  predicate Enabled(s: ClientState, e: Event) {
    match e
    case Tick(candidates, _) => CanSend(s, candidates)
    case DataFor(k) => Awaiting(s, k)
    case NackFor(k) => Awaiting(s, k)
    case TimeoutFor(k) => Awaiting(s, k)
    case Signal => s.phase == Running
  }

  function Apply(s: ClientState, e: Event): ClientState
    requires Enabled(s, e)
  {
    match e
    case Tick(candidates, faceThrows) => SendStep(s, candidates, faceThrows)
    case DataFor(k) => DataStep(s, k)
    case NackFor(k) => NackStep(s, k)
    case TimeoutFor(k) => TimeoutStep(s, k)
    case Signal => StopStep(s)
  }

  /** The loop can deliver these callbacks one after another. */
  predicate Feasible(s: ClientState, events: seq<Event>)
    decreases |events|
  {
    |events| == 0 || (Enabled(s, events[0]) && Feasible(Apply(s, events[0]), events[1..]))
  }

  function Replay(s: ClientState, events: seq<Event>): ClientState
    requires Feasible(s, events)
    decreases |events|
  {
    if |events| == 0 then s else Replay(Apply(s, events[0]), events[1..])
  }

  /** Number of expressed Interests answered with Data. */
  function AnsweredCount(log: seq<Dispatch>): (n: nat)
    ensures n <= |log|
  {
    if |log| == 0 then 0
    else AnsweredCount(log[..|log| - 1]) + (if log[|log| - 1].outcome == Answered then 1 else 0)
  }

  /**
   * What holds of a client between callbacks: the quota bounds the sent
   * count, the timer keeps a fixed cadence from its origin, the pool is
   * bounded and duplicate-free, sequence numbers are strictly increasing and
   * below the sent count, received counts the answered Interests, and the
   * error flag is only ever set when stopping.
   */
  ghost predicate Valid(s: ClientState) {
    && s.intervalMs > 0
    && (s.quota.Some? ==> s.sent <= s.quota.value)
    && (s.phase == Idle ==> s.sent == 0 && s.log == [] && !s.armed)
    && (s.phase == Running ==> s.expiry == s.origin + (s.sent + 1) * s.intervalMs)
    && |s.nonces| <= Capacity && Distinct(s.nonces)
    && LogValid(s.log, s.sent, s.received)
    && (s.phase != Stopped ==> !s.hasError)
  }

  /**
   * The face's record agrees with the counters: no more Interests than were
   * counted as sent, sequence numbers strictly increasing and below the sent
   * count, and received equal to the number answered.
   */
  ghost predicate LogValid(log: seq<Dispatch>, sent: nat, received: nat) {
    && |log| <= sent
    && (forall k :: 0 <= k < |log| ==> log[k].interest.seqNo < sent)
    && (forall i, j :: 0 <= i < j < |log| ==> log[i].interest.seqNo < log[j].interest.seqNo)
    && received == AnsweredCount(log)
  }

  /** Counting one more Interest as sent, whether or not the face accepted it, keeps the record consistent. */
  lemma LogSend(log: seq<Dispatch>, sent: nat, received: nat, d: Dispatch, accepted: bool)
    requires LogValid(log, sent, received)
    requires d.interest.seqNo == sent && d.outcome == Pending
    ensures LogValid(if accepted then log + [d] else log, sent + 1, received)
  {
    if accepted {
      AnsweredCountAppend(log, d);
    }
  }

  lemma {:induction false} AnsweredCountAppend(log: seq<Dispatch>, d: Dispatch)
    ensures AnsweredCount(log + [d]) == AnsweredCount(log) + (if d.outcome == Answered then 1 else 0)
  {
    assert (log + [d])[..|log|] == log;
  }

  /** Resolving a pending Interest adds one to the answered count exactly when the outcome is Data. */
  lemma {:induction false} AnsweredCountResolve(log: seq<Dispatch>, k: nat, o: Outcome)
    requires k < |log| && log[k].outcome == Pending
    ensures AnsweredCount(log[k := log[k].(outcome := o)]) == AnsweredCount(log) + (if o == Answered then 1 else 0)
    decreases |log|
  {
    var log' := log[k := log[k].(outcome := o)];
    var n := |log| - 1;
    assert log'[..n] == if k == n then log[..n] else log[..n][k := log[..n][k].(outcome := o)];
    if k < n {
      AnsweredCountResolve(log[..n], k, o);
    }
  }

  /** All expressed Interests are answered exactly when the answered count reaches the log's length. */
  lemma {:induction false} AnsweredCountFull(log: seq<Dispatch>)
    ensures AnsweredCount(log) == |log| <==> forall k :: 0 <= k < |log| ==> log[k].outcome == Answered
    decreases |log|
  {
    if |log| > 0 {
      var n := |log| - 1;
      AnsweredCountFull(log[..n]);
      if AnsweredCount(log) == |log| {
        forall k | 0 <= k < |log| ensures log[k].outcome == Answered {
          if k < n { assert log[..n][k] == log[k]; }
        }
      }
      if forall k :: 0 <= k < |log| ==> log[k].outcome == Answered {
        forall k | 0 <= k < n ensures log[..n][k].outcome == Answered {
          assert log[..n][k] == log[k];
        }
      }
    }
  }

  /** A client configured by main() is valid before run(). */
  lemma ConfiguredValid(prefix: string, quota: Option<Uint64>, intervalMs: nat)
    requires intervalMs > 0
    ensures Valid(Configured(prefix, quota, intervalMs))
  {
  }

  lemma StartValid(s: ClientState, now: int)
    requires Valid(s) && s.phase == Idle
    ensures Valid(StartStep(s, now).0)
  {
  }

  /** A timer callback keeps every part of the invariant. */
  lemma SendValid(s: ClientState, candidates: seq<Word32>, faceThrows: bool)
    requires Valid(s) && CanSend(s, candidates)
    ensures Valid(SendStep(s, candidates, faceThrows))
  {
    var r := SendStep(s, candidates, faceThrows);
    if !QuotaReached(s) {
      DrawBounded(s.nonces, candidates);
      DrawKeepsDistinct(s.nonces, candidates);
      assert |r.nonces| <= Capacity && Distinct(r.nonces);
      assert r.expiry == r.origin + (r.sent + 1) * r.intervalMs by {
        assert (s.sent + 1) * s.intervalMs + s.intervalMs == (s.sent + 1 + 1) * s.intervalMs;
      }
      var d := Dispatch(Interest(s.prefix, s.sent, Draw(s.nonces, candidates).0, InterestLifetimeMs, false, false), Pending);
      LogSend(s.log, s.sent, s.received, d, !faceThrows);
      assert LogValid(r.log, r.sent, r.received);
    }
  }

  lemma ResolveValid(s: ClientState, k: nat, o: Outcome)
    requires Valid(s) && Awaiting(s, k)
    ensures Valid(Resolve(s, k, o).(received := s.received + (if o == Answered then 1 else 0)))
  {
    AnsweredCountResolve(s.log, k, o);
  }

  lemma {:induction false} ApplyValid(s: ClientState, e: Event)
    requires Valid(s) && Enabled(s, e)
    ensures Valid(Apply(s, e))
  {
    match e
    case Tick(candidates, faceThrows) => SendValid(s, candidates, faceThrows);
    case DataFor(k) => ResolveValid(s, k, Answered);
    case NackFor(k) => ResolveValid(s, k, Nacked);
    case TimeoutFor(k) => ResolveValid(s, k, TimedOut);
    case Signal =>
  }

  /** Every sequence of callbacks keeps the invariant. */
  lemma {:induction false} ReplayValid(s: ClientState, events: seq<Event>)
    requires Valid(s) && Feasible(s, events)
    ensures Valid(Replay(s, events))
    decreases |events|
  {
    if |events| > 0 {
      ApplyValid(s, events[0]);
      ReplayValid(Apply(s, events[0]), events[1..]);
    }
  }

  /** The state after run() started a configured client and the loop delivered `events`. */
  function RunFrom(prefix: string, quota: Option<Uint64>, intervalMs: nat, now: int, events: seq<Event>): ClientState
    requires Feasible(StartStep(Configured(prefix, quota, intervalMs), now).0, events)
  {
    Replay(StartStep(Configured(prefix, quota, intervalMs), now).0, events)
  }

  /** With a quota of N, no sequence of timer ticks and outcomes makes the client send more than N Interests. */
  lemma QuotaNeverExceeded(prefix: string, n: Uint64, intervalMs: nat, now: int, events: seq<Event>)
    requires intervalMs > 0
    requires Feasible(StartStep(Configured(prefix, Some(n), intervalMs), now).0, events)
    ensures RunFrom(prefix, Some(n), intervalMs, now, events).sent <= n
  {
    ConfiguredValid(prefix, Some(n), intervalMs);
    StartValid(Configured(prefix, Some(n), intervalMs), now);
    ReplayValid(StartStep(Configured(prefix, Some(n), intervalMs), now).0, events);
    ReplayKeepsConfig(StartStep(Configured(prefix, Some(n), intervalMs), now).0, events);
  }

  /** Fixed cadence: while running, after k Interests the timer expires at start + (k + 1) intervals, whatever else happened. */
  lemma FixedCadence(prefix: string, quota: Option<Uint64>, intervalMs: nat, now: int, events: seq<Event>)
    requires intervalMs > 0
    requires Feasible(StartStep(Configured(prefix, quota, intervalMs), now).0, events)
    ensures var s := RunFrom(prefix, quota, intervalMs, now, events);
            s.phase == Running ==> s.expiry == now + (s.sent + 1) * intervalMs
  {
    var c := Configured(prefix, quota, intervalMs);
    var start := StartStep(c, now).0;
    ConfiguredValid(prefix, quota, intervalMs);
    StartValid(c, now);
    ReplayValid(start, events);
    ReplayKeepsConfig(start, events);
    OnlyRunningDelivers(start, events);
    var s := Replay(start, events);
    if s.phase == Running {
      assert start.origin == now;
      assert s.expiry == s.origin + (s.sent + 1) * s.intervalMs;
    }
  }

  /** Every callback needs a running client, so a client that is running after some callbacks was running before them. */
  lemma OnlyRunningDelivers(s: ClientState, events: seq<Event>)
    requires Feasible(s, events)
    ensures Replay(s, events).phase == Running ==> s.phase == Running
  {
    if |events| > 0 {
      assert Enabled(s, events[0]);
    }
  }

  /** Callbacks never change the configuration or the timer's origin. */
  lemma {:induction false} ReplayKeepsConfig(s: ClientState, events: seq<Event>)
    requires Feasible(s, events)
    ensures var r := Replay(s, events);
            r.quota == s.quota && r.intervalMs == s.intervalMs && r.origin == s.origin && r.prefix == s.prefix
    decreases |events|
  {
    if |events| > 0 {
      ReplayKeepsConfig(Apply(s, events[0]), events[1..]);
    }
  }

  /** Number of timer callbacks in a sequence of callbacks. */
  function TickCount(events: seq<Event>): (n: nat)
    ensures n <= |events|
  {
    if |events| == 0 then 0 else (if events[0].Tick? then 1 else 0) + TickCount(events[1..])
  }

  function Min(a: nat, b: nat): nat {
    if a <= b then a else b
  }

  /** Under a quota of N every timer callback sends one Interest until N are sent: the sent count is the ticks so far, capped at N. */
  lemma {:induction false} SentCount(s: ClientState, n: Uint64, events: seq<Event>)
    requires s.quota == Some(n) && s.sent <= n
    requires Feasible(s, events)
    ensures Replay(s, events).sent == Min(s.sent + TickCount(events), n)
    decreases |events|
  {
    if |events| > 0 {
      SentCount(Apply(s, events[0]), n, events[1..]);
    }
  }

  /**
   * With a maximum of N, the client sends exactly N Interests once the timer
   * has fired N times (fewer ticks send one each). Stopping it then exits 0
   * exactly when the face accepted all N and answered each one with Data.
   */
  lemma RunSendsQuota(prefix: string, n: Uint64, intervalMs: nat, now: int, events: seq<Event>)
    requires intervalMs > 0
    requires Feasible(StartStep(Configured(prefix, Some(n), intervalMs), now).0, events)
    ensures RunFrom(prefix, Some(n), intervalMs, now, events).sent == Min(TickCount(events), n)
    ensures TickCount(events) >= n ==> RunFrom(prefix, Some(n), intervalMs, now, events).sent == n
    ensures var s := RunFrom(prefix, Some(n), intervalMs, now, events);
            TickCount(events) >= n && s.phase == Running ==>
              (FinishStep(StopStep(s), false).1 == ExitOk <==>
                 |s.log| == n && forall k :: 0 <= k < |s.log| ==> s.log[k].outcome == Answered)
  {
    var start := StartStep(Configured(prefix, Some(n), intervalMs), now).0;
    SentCount(start, n, events);
    ConfiguredValid(prefix, Some(n), intervalMs);
    StartValid(Configured(prefix, Some(n), intervalMs), now);
    ReplayValid(start, events);
    var s := Replay(start, events);
    if s.phase == Running {
      StopExitStatus(s);
    }
  }

  /** Sequence numbers on the wire are strictly increasing and never reuse a number at or above the sent count. */
  lemma SequenceNumbersIncrease(prefix: string, quota: Option<Uint64>, intervalMs: nat, now: int, events: seq<Event>)
    requires intervalMs > 0
    requires Feasible(StartStep(Configured(prefix, quota, intervalMs), now).0, events)
    ensures var log := RunFrom(prefix, quota, intervalMs, now, events).log;
            forall i, j :: 0 <= i < j < |log| ==> log[i].interest.seqNo < log[j].interest.seqNo
    ensures var s := RunFrom(prefix, quota, intervalMs, now, events);
            |s.log| <= s.sent && forall k :: 0 <= k < |s.log| ==> s.log[k].interest.seqNo < s.sent
  {
    ConfiguredValid(prefix, quota, intervalMs);
    StartValid(Configured(prefix, quota, intervalMs), now);
    ReplayValid(StartStep(Configured(prefix, quota, intervalMs), now).0, events);
  }

  /**
   * Stopping a running client exits 0 exactly when every Interest it counted
   * as sent was accepted by the face and answered with Data; a single
   * timeout, Nack, still-pending Interest or face exception makes it exit 1.
   */
  lemma StopExitStatus(s: ClientState)
    requires Valid(s) && s.phase == Running
    ensures FinishStep(StopStep(s), false).1 == ExitOk <==>
              |s.log| == s.sent && forall k :: 0 <= k < |s.log| ==> s.log[k].outcome == Answered
  {
    AnsweredCountFull(s.log);
  }

  /** A zero quota: run() returns 0 at once, nothing is sent, and no callback can run afterwards. */
  lemma ZeroQuotaSendsNothing(prefix: string, intervalMs: nat, now: int)
    ensures var (s, status) := StartStep(Configured(prefix, Some(0), intervalMs), now);
            status == Some(ExitOk) && s.sent == 0 && s.log == [] && forall e :: !Enabled(s, e)
  {
  }

  /**
   * The client object. Each method is one callback of the source and is
   * specified by the step function above; `origin` and `log` are ghost
   * bookkeeping (the timer's creation time and the face's record).
   */
  class NdnHelloWorldClient {
    const prefix: string
    var maxInterests: Option<Uint64>
    var intervalMs: nat
    var nonces: seq<Word32>
    var sent: nat
    var received: nat
    var hasError: bool
    var phase: Phase
    ghost var origin: int
    var expiry: int
    var armed: bool
    ghost var log: seq<Dispatch>

    ghost function State(): ClientState
      reads this
    {
      ClientState(prefix, maxInterests, intervalMs, nonces, sent, received, hasError, phase, origin, expiry, armed, log)
    }

    constructor (prefix: string)
      ensures State() == Init(prefix)
    {
      this.prefix := prefix;
      maxInterests := None;
      intervalMs := DefaultIntervalMs;
      nonces := [];
      sent, received := 0, 0;
      hasError := false;
      phase := Idle;
      origin, expiry, armed := 0, 0, false;
      log := [];
    }

    method SetMaximumInterests(n: Uint64)
      modifies this`maxInterests
      ensures State() == old(State()).(quota := Some(n))
    {
      maxInterests := Some(n);
    }

    method SetInterestInterval(ms: nat)
      requires ms > 0
      modifies this`intervalMs
      ensures State() == old(State()).(intervalMs := ms)
    {
      intervalMs := ms;
    }

    /** run() up to the event loop: returns a status only when the quota is zero. */
    method Run(now: int) returns (early: Option<int>)
      requires phase == Idle
      modifies this
      ensures (State(), early) == StartStep(old(State()), now)
    {
      if maxInterests == Some(0) {
        phase := Stopped;
        return Some(ExitOk);
      }
      origin := now;
      expiry := now + intervalMs;
      armed := true;
      phase := Running;
      early := None;
    }

    /** getNewNonce: empties a full pool, retries until the generator yields an unpooled word, and appends it. */
    method GetNewNonce(candidates: seq<Word32>) returns (nonce: Word32)
      requires HasFresh(Cleared(nonces), candidates)
      modifies this`nonces
      ensures (nonce, nonces) == Draw(old(nonces), candidates)
    {
      if |nonces| >= Capacity {
        nonces := [];
      }
      var i := 0;
      nonce := candidates[i];
      while nonce in nonces
        invariant 0 <= i < |candidates| && nonce == candidates[i]
        invariant nonces == Cleared(old(nonces))
        invariant forall j :: 0 <= j < i ==> candidates[j] in nonces
        invariant HasFresh(nonces, candidates[i..])
        decreases |candidates| - i
      {
        assert candidates[i..][0] in nonces;
        assert HasFresh(nonces, candidates[i + 1..]) by {
          var k :| 0 <= k < |candidates[i..]| && candidates[i..][k] !in nonces;
          assert candidates[i + 1..][k - 1] == candidates[i..][k];
        }
        i := i + 1;
        nonce := candidates[i];
      }
      assert i == FirstFresh(Cleared(old(nonces)), candidates) by {
        FirstFreshUnique(Cleared(old(nonces)), candidates, i);
      }
      nonces := nonces + [nonce];
    }

    /** sendInterest: the timer callback. */
    method SendInterest(candidates: seq<Word32>, faceThrows: bool)
      requires CanSend(State(), candidates)
      modifies this
      ensures State() == SendStep(old(State()), candidates, faceThrows)
    {
      if maxInterests.Some? && sent >= maxInterests.value {
        armed := false;
        return;
      }
      var seqNo := sent;
      sent := sent + 1;
      var nonce := GetNewNonce(candidates);
      var interest := Interest(prefix, seqNo, nonce, InterestLifetimeMs, false, false);
      if !faceThrows {
        log := log + [Dispatch(interest, Pending)];
      }
      expiry := expiry + intervalMs;
      armed := true;
    }

    method OnData(ghost k: nat)
      requires Awaiting(State(), k)
      modifies this
      ensures State() == DataStep(old(State()), k)
    {
      received := received + 1;
      log := log[k := log[k].(outcome := Answered)];
    }

    method OnNack(ghost k: nat)
      requires Awaiting(State(), k)
      modifies this
      ensures State() == NackStep(old(State()), k)
    {
      log := log[k := log[k].(outcome := Nacked)];
    }

    method OnTimeout(ghost k: nat)
      requires Awaiting(State(), k)
      modifies this
      ensures State() == TimeoutStep(old(State()), k)
    {
      log := log[k := log[k].(outcome := TimedOut)];
    }

    method Stop()
      requires phase == Running
      modifies this
      ensures State() == StopStep(old(State()))
    {
      if sent != received {
        hasError := true;
      }
      armed := false;
      phase := Stopped;
    }

    /** run() after the event loop: it returned normally (after stop) or threw. */
    method Finish(threw: bool) returns (status: int)
      requires threw || phase == Stopped
      modifies this
      ensures (State(), status) == FinishStep(old(State()), threw)
    {
      phase := Stopped;
      armed := false;
      status := if threw || hasError then ExitError else ExitOk;
    }
  }

  /**
   * main() after option parsing: an invalid --count or --interval exits with
   * 2; otherwise the client is configured and run() starts. The result is the
   * status when main() returns before the event loop, and None when the loop
   * starts.
   */
  method ClientMain(prefix: string, count: Option<Int64>, intervalMs: Int64, now: int)
    returns (status: Option<int>, client: NdnHelloWorldClient?)
    ensures status == Some(ExitUsage) <==> (count.Some? && count.value < 0) || intervalMs <= 0
    ensures status == Some(ExitOk) <==> count == Some(0) && intervalMs > 0
    ensures status.Some? ==> status.value == ExitUsage || status.value == ExitOk
    ensures status.None? ==>
              var checked := Args.CheckClientArgs(count, intervalMs);
              checked.Run? && client != null &&
              client.State() == StartStep(Configured(prefix, checked.config.quota, checked.config.intervalMs), now).0
  {
    var checked := Args.CheckClientArgs(count, intervalMs);
    if checked.Exit? {
      return Some(checked.status), null;
    }
    client := new NdnHelloWorldClient(prefix);
    if checked.config.quota.Some? {
      client.SetMaximumInterests(checked.config.quota.value);
    }
    client.SetInterestInterval(checked.config.intervalMs);
    status := client.Run(now);
  }

  /** Delivering one more callback in front of a feasible sequence. */
  lemma {:induction false} ReplayCons(s: ClientState, e: Event, rest: seq<Event>)
    requires Enabled(s, e) && Feasible(Apply(s, e), rest)
    ensures Feasible(s, [e] + rest) && Replay(s, [e] + rest) == Replay(Apply(s, e), rest)
  {
    assert ([e] + rest)[0] == e && ([e] + rest)[1..] == rest;
  }

  /**
   * A run with a quota of two over a reliable face: both Interests are
   * answered, the third tick finds the quota met, and the termination signal
   * ends the run with status 0. The second tick's generator first repeats the
   * pooled nonce 7, which is skipped.
   */
  lemma ReliableRunExitsClean(prefix: string, now: int)
    ensures var events := [Tick([7], false), DataFor(0), Tick([7, 8], false), DataFor(1), Tick([], false), Signal];
            Feasible(StartStep(Configured(prefix, Some(2), 100), now).0, events) &&
            var s := RunFrom(prefix, Some(2), 100, now, events);
            s.sent == 2 && s.received == 2 && FinishStep(s, false).1 == ExitOk &&
            s.nonces == [7, 8] && |s.log| == 2 && s.log[1].interest.nonce == 8
  {
    var s0 := StartStep(Configured(prefix, Some(2), 100), now).0;
    var rest := [Tick([7, 8], false), DataFor(1), Tick([], false), Signal];
    ReliableFirstAnswer(prefix, now);
    ReliableSecondAnswer(prefix, now);
    var s1 := Apply(s0, Tick([7], false));
    ReplayCons(s1, DataFor(0), rest);
    ReplayCons(s0, Tick([7], false), [DataFor(0)] + rest);
  }

  /** The reliable run halfway: one Interest sent with nonce 7 and answered. */
  function ReliableHalfway(prefix: string, now: int): ClientState {
    ClientState(prefix, Some(2), 100, [7], 1, 1, false, Running, now, now + 200, true,
                [Dispatch(Interest(prefix, 0, 7, InterestLifetimeMs, false, false), Answered)])
  }

  lemma ReliableFirstAnswer(prefix: string, now: int)
    ensures var s0 := StartStep(Configured(prefix, Some(2), 100), now).0;
            Enabled(s0, Tick([7], false)) && Enabled(Apply(s0, Tick([7], false)), DataFor(0)) &&
            Apply(Apply(s0, Tick([7], false)), DataFor(0)) == ReliableHalfway(prefix, now)
  {
    var s0 := StartStep(Configured(prefix, Some(2), 100), now).0;
    assert [7][0] !in Cleared(s0.nonces);
    var s1 := Apply(s0, Tick([7], false));
    assert s1.nonces == [7];
  }

  lemma ReliableSecondAnswer(prefix: string, now: int)
    ensures var rest := [Tick([7, 8], false), DataFor(1), Tick([], false), Signal];
            Feasible(ReliableHalfway(prefix, now), rest) &&
            var s := Replay(ReliableHalfway(prefix, now), rest);
            s.sent == 2 && s.received == 2 && !s.hasError && s.phase == Stopped &&
            s.nonces == [7, 8] && |s.log| == 2 && s.log[1].interest.nonce == 8
  {
    var s2 := ReliableHalfway(prefix, now);
    assert [7, 8][1] !in Cleared(s2.nonces);
    var s3 := Apply(s2, Tick([7, 8], false));
    assert s3.nonces == [7, 8] && |s3.log| == 2 && s3.log[1].interest.nonce == 8 && s3.sent == 2;
    var s4 := Apply(s3, DataFor(1));
    var s5 := Apply(s4, Tick([], false));
    var s6 := Apply(s5, Signal);
    ReplayCons(s5, Signal, []);
    ReplayCons(s4, Tick([], false), [Signal]);
    ReplayCons(s3, DataFor(1), [Tick([], false), Signal]);
    ReplayCons(s2, Tick([7, 8], false), [DataFor(1), Tick([], false), Signal]);
  }

  /**
   * A run with a quota of two where the responder answers only the first
   * Interest: the second times out, so stopping ends with status 1.
   */
  lemma UnansweredRunExitsWithError(prefix: string, now: int)
    ensures var events := [Tick([1], false), Tick([2], false), DataFor(0), TimeoutFor(1), Signal];
            Feasible(StartStep(Configured(prefix, Some(2), 1000), now).0, events) &&
            var s := RunFrom(prefix, Some(2), 1000, now, events);
            s.sent == 2 && s.received == 1 && FinishStep(s, false).1 == ExitError
  {
    var s0 := StartStep(Configured(prefix, Some(2), 1000), now).0;
    assert [1][0] !in Cleared(s0.nonces);
    var s1 := Apply(s0, Tick([1], false));
    assert s1.nonces == [1];
    assert [2][0] !in Cleared(s1.nonces);
    var s2 := Apply(s1, Tick([2], false));
    var s3 := Apply(s2, DataFor(0));
    var s4 := Apply(s3, TimeoutFor(1));
    var s5 := Apply(s4, Signal);
    ReplayCons(s4, Signal, []);
    ReplayCons(s3, TimeoutFor(1), [Signal]);
    ReplayCons(s2, DataFor(0), [TimeoutFor(1), Signal]);
    ReplayCons(s1, Tick([2], false), [DataFor(0), TimeoutFor(1), Signal]);
    ReplayCons(s0, Tick([1], false), [Tick([2], false), DataFor(0), TimeoutFor(1), Signal]);
    assert s5.sent == 2 && s5.received == 1 && s5.hasError;
  }
}
