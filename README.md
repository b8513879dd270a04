# NDN Hello World client and server, modelled in Dafny

This project models the two programs of the NDN Hello World example.

- The **client** (`NdnHelloWorldClient`) sends one Interest per timer tick under a name prefix. Each Interest carries the next sequence number and a nonce drawn from a pool of recent nonces. The client stops sending at an optional quota. It counts the Data packets it receives. When the termination signal arrives, it exits with status 1 if the sent and received counts differ.
- The **server** (`NdnHelloWorldServer`) answers Interests with a signed "Hello World!!!" Data packet, at most an optional quota of times. When the quota is met it cancels its signal wait. The signal handler flags an error when the quota is set and was not met.
- Both `main` functions reject a negative `--count` with status 2. The client also rejects a non-positive `--interval` with status 2.

Both programs run on a single-threaded event loop, so each callback is modelled as one atomic step. Each program gets three layers:

1. A state datatype (`ClientState`, `ServerState`) and one pure step function per callback (`SendStep`, `DataStep`, `InterestStep`, `SignalStep`, ...).
2. A class with the source's fields whose methods update them in place. Each method ensures `State() == Step(old(State()), ...)`.
3. Lemmas over arbitrary sequences of callbacks (`Replay`). An invariant `Valid` is proved to hold along every such sequence, and the promised properties follow from it: the quota bound, fixed timer cadence, increasing sequence numbers, a duplicate-free nonce pool, and the exit-status decision.

The environment enters the model as parameters:

- **Random generator.** A sequence of candidate words. A draw keeps the first candidate not already in the pool.
- **Network face.** A ghost log: the Interests the face accepted, with the outcome delivered for each, and the Data packets handed to it.
- **Face exceptions.** A boolean per send. For the event loop as a whole, a `threw` flag.
- **Clock.** The time `now` at which `run()` creates the timer. All times are in milliseconds.

Modules: `Common` (option type, integer widths, exit statuses), `Args` (post-parse checks), `NoncePool` (`getNewNonce`), `Client`, `Server`.

Behaviour worth knowing, as the code has it:

- An exception from `expressInterest` is caught inside `sendInterest` and only logged. The sequence number is still consumed and `sent` still grows. Such a run therefore ends with status 1 at `stop()` (see `Client.StopExitStatus`).
- When the server reaches its quota, `onInterest` calls `m_signalSet.cancel()`. Under Boost.Asio the cancelled wait still runs the signal lambda, which ignores its error code. So reaching the quota leads to `stop()` with status 0 and no external signal. Interests already queued before that handler may still be processed; they get no answer (`Server.NothingServedAfterQuota`).
- The client's error condition is `sent != received`, whatever the cause. A client with quota 2 against a server that answers once ends with status 1, while the server ends with status 0 (`Client.UnansweredRunExitsWithError`; for the server, `Server.QuotaReachedStopsClean`: a request that meets the quota leads to status 0).
- The server source refers to names that are declared nowhere:
  - Line 105 reads `pattern.m_freshnessPeriod`. The freshness decision is therefore an opaque boolean parameter, `freshnessPolicy`.
  - Line 225 calls `setQuietLogging()`, which the class does not define. `m_wantQuiet` only guards a log line.

## Model

| member | source | states |
|---|---|---|
| `Args.CheckClientArgs` | src/ndn-helloworld-client.cpp:270-286 | status 2 exactly when `--count` is negative or `--interval` is not positive; otherwise the quota equals the count (absent stays absent) and the interval is the positive value given |
| `Args.CheckServerArgs` | src/ndn-helloworld-server.cpp:215-222 | status 2 exactly when `--count` is negative; otherwise the quota equals the count, or is absent |
| `Client.ClientMain` | src/ndn-helloworld-client.cpp:268-288 | main returns 2 exactly on an invalid count or interval, returns 0 before the loop exactly when the count is 0, and otherwise starts the loop with a client whose state is `StartStep` of the checked configuration, where every callback-sequence lemma begins |
| `Server.ServerMain` | src/ndn-helloworld-server.cpp:213-228 | main returns 2 exactly on a negative count, returns 0 before the loop exactly when the count is 0, and otherwise starts the loop with a server whose state is `StartStep` of the checked configuration, where every callback-sequence lemma begins |
| `NoncePool.FirstFresh` | src/ndn-helloworld-client.cpp:109-111 | the retry loop stops at a generated word that is not pooled, and every word generated before it was a collision |
| `NoncePool.Draw` | src/ndn-helloworld-client.cpp:103-115 | the nonce returned is one of the generated words, is absent from the pool as it stood after the optional clear, and is appended at the end of that pool |
| `NoncePool.FirstFreshUnique` | src/ndn-helloworld-client.cpp:110-111 | a fresh word with only collisions before it is the one the retry loop stops at |
| `NoncePool.DrawBounded` | src/ndn-helloworld-client.cpp:106-113 | a full pool (1000 or more) restarts at size 1, any other pool grows by exactly 1, so a pool within 1000 stays within 1000 |
| `NoncePool.DrawKeepsDistinct` | src/ndn-helloworld-client.cpp:110-113 | drawing keeps the pool's entries pairwise distinct |
| `NoncePool.DrawManyDistinct` | src/ndn-helloworld-client.cpp:103-115 | within one pool window the nonces of successive calls are pairwise distinct, differ from everything already pooled, and are exactly what the pool gains |
| `NoncePool.FreshWindow` | src/ndn-helloworld-client.cpp:103-115 | starting from an empty pool, any 1000 or fewer calls return pairwise distinct nonces |
| `Client.NdnHelloWorldClient.GetNewNonce` | src/ndn-helloworld-client.cpp:103-115 | the in-place clear, retry loop and append produce exactly `Draw` of the old pool |
| `Client.NdnHelloWorldClient.constructor` | src/ndn-helloworld-client.cpp:57-61 | a new client has no quota, a 1000 ms interval, an empty pool, zero counters and no error |
| `Client.NdnHelloWorldClient.SetMaximumInterests` | src/ndn-helloworld-client.cpp:63-67 | sets the quota and nothing else |
| `Client.NdnHelloWorldClient.SetInterestInterval` | src/ndn-helloworld-client.cpp:69-74 | requires a positive interval (the assertion) and sets it, nothing else |
| `Client.StartStep` | src/ndn-helloworld-client.cpp:76-89 | a zero quota returns 0 at once with nothing sent; otherwise the client runs with the timer armed to expire one interval from now |
| `Client.NdnHelloWorldClient.Run` | src/ndn-helloworld-client.cpp:76-89 | performs `StartStep` on the object's fields |
| `Client.SendStep` | src/ndn-helloworld-client.cpp:143-180 | at the quota nothing is sent and the timer is not rearmed; otherwise the old sent count is the sequence number, sent grows by exactly 1 even when the face throws, a fresh nonce is drawn, the Interest (exact name, not must-be-fresh, 1 s lifetime) is logged only when the face accepted it, and the expiry moves forward by exactly one interval |
| `Client.NdnHelloWorldClient.SendInterest` | src/ndn-helloworld-client.cpp:143-180 | performs `SendStep` on the object's fields |
| `Client.DataStep` | src/ndn-helloworld-client.cpp:117-126 | received grows by exactly 1; sent and the error flag are unchanged; the Interest is marked answered; the pool, timer, phase, configuration and every other logged Interest are unchanged |
| `Client.NdnHelloWorldClient.OnData` | src/ndn-helloworld-client.cpp:117-126 | performs `DataStep` on the object's fields |
| `Client.NackStep` | src/ndn-helloworld-client.cpp:128-134 | both counters and the error flag are unchanged; the Interest is marked nacked; the pool, timer, phase, configuration and every other logged Interest are unchanged |
| `Client.NdnHelloWorldClient.OnNack` | src/ndn-helloworld-client.cpp:128-134 | performs `NackStep` on the object's fields |
| `Client.TimeoutStep` | src/ndn-helloworld-client.cpp:136-141 | both counters and the error flag are unchanged; the Interest is marked timed out; the pool, timer, phase, configuration and every other logged Interest are unchanged |
| `Client.NdnHelloWorldClient.OnTimeout` | src/ndn-helloworld-client.cpp:136-141 | performs `TimeoutStep` on the object's fields |
| `Client.StopStep` | src/ndn-helloworld-client.cpp:182-191 | the error flag is set when sent differs from received and is never cleared; the client stops |
| `Client.NdnHelloWorldClient.Stop` | src/ndn-helloworld-client.cpp:182-191 | performs `StopStep` on the object's fields |
| `Client.FinishStep` | src/ndn-helloworld-client.cpp:91-99 | run returns 1 exactly when the loop threw or the error flag is set, else 0 |
| `Client.NdnHelloWorldClient.Finish` | src/ndn-helloworld-client.cpp:91-99 | performs `FinishStep` on the object's fields |
| `Client.SendValid` | src/ndn-helloworld-client.cpp:143-180 | a timer callback preserves the client invariant: quota bound, cadence, bounded duplicate-free pool, ordered sequence numbers, received equal to the answered count |
| `Client.ReplayValid` | src/ndn-helloworld-client.cpp:117-191 | every sequence of ticks, outcomes and the signal preserves the client invariant |
| `Client.QuotaNeverExceeded` | src/ndn-helloworld-client.cpp:146-150 | with quota N, sent never exceeds N over any sequence of callbacks |
| `Client.SentCount` | src/ndn-helloworld-client.cpp:146-150 | under quota N, each timer callback sends one Interest until N are sent: sent equals the ticks delivered, capped at N |
| `Client.RunSendsQuota` | src/ndn-helloworld-client.cpp:143-191 | with quota N and at least N timer callbacks the client sends exactly N Interests, and stopping then gives status 0 exactly when the face accepted all N and answered each with Data |
| `Client.FixedCadence` | src/ndn-helloworld-client.cpp:178-179 | while running, after k sends the timer expires at start + (k+1) intervals, with no drift |
| `Client.SequenceNumbersIncrease` | src/ndn-helloworld-client.cpp:149-150 | the sequence numbers of expressed Interests are strictly increasing and all below the sent count, so none is reused |
| `Client.StopExitStatus` | src/ndn-helloworld-client.cpp:185-187 | stopping gives status 0 exactly when every Interest counted as sent was accepted by the face and answered with Data |
| `Client.ZeroQuotaSendsNothing` | src/ndn-helloworld-client.cpp:81-84 | a zero quota returns 0 with nothing sent, and no callback can run afterwards |
| `Client.ReliableRunExitsClean` | src/ndn-helloworld-client.cpp:143-191 | quota 2 with every Interest answered: 2 sent, 2 received, status 0; the second draw skips the repeated word 7, so the second Interest carries nonce 8 and the pool is [7, 8] |
| `Client.UnansweredRunExitsWithError` | src/ndn-helloworld-client.cpp:182-191 | quota 2 with one Interest timing out: 2 sent, 1 received, status 1 |
| `Server.NdnHelloWorldServer.constructor` | src/ndn-helloworld-server.cpp:53-57 | a new server has no quota, nothing answered and no error |
| `Server.NdnHelloWorldServer.SetMaximumInterests` | src/ndn-helloworld-server.cpp:59-63 | sets the quota and nothing else |
| `Server.StartStep` | src/ndn-helloworld-server.cpp:65-84 | a zero quota returns 0 without registering the prefix; otherwise the server registers and listens |
| `Server.NdnHelloWorldServer.Run` | src/ndn-helloworld-server.cpp:65-84 | performs `StartStep` on the object's fields |
| `Server.Response` | src/ndn-helloworld-server.cpp:103-111 | the Data carries exactly the Interest's name and the content "Hello World!!!", is signed, and has a freshness period of exactly 1000 ms under the freshness policy and none otherwise |
| `Server.InterestStep` | src/ndn-helloworld-server.cpp:98-126 | under the quota, exactly one response with the Interest's name is emitted and the count grows by 1; at the quota nothing is emitted and the count is unchanged; the wait is cancelled once the count reaches the quota |
| `Server.NdnHelloWorldServer.OnInterest` | src/ndn-helloworld-server.cpp:98-126 | performs `InterestStep` on the object's fields |
| `Server.SignalStep` | src/ndn-helloworld-server.cpp:74-79 | the error flag is set exactly when a quota is set and unmet, never cleared, and the server stops |
| `Server.NdnHelloWorldServer.OnSignal` | src/ndn-helloworld-server.cpp:74-79 | performs `SignalStep` on the object's fields |
| `Server.FinishStep` | src/ndn-helloworld-server.cpp:86-94 | run returns 1 exactly when the loop threw or the error flag is set, else 0 |
| `Server.NdnHelloWorldServer.Finish` | src/ndn-helloworld-server.cpp:86-94 | performs `FinishStep` on the object's fields |
| `Server.ReplayValid` | src/ndn-helloworld-server.cpp:74-126 | every sequence of requests and signals preserves the server invariant: answered count within the quota and equal to the number of responses, every response signed with the fixed content, wait cancelled exactly at the quota |
| `Server.ServedNeverExceedsQuota` | src/ndn-helloworld-server.cpp:102-113 | with quota N, at most N requests are answered, however requests arrive |
| `Server.NothingServedAfterQuota` | src/ndn-helloworld-server.cpp:102 | once the quota is met, no later request gets a response and the count stays put |
| `Server.SignalExitStatus` | src/ndn-helloworld-server.cpp:74-79 | the signal handler leads to status 1 exactly when a quota is set and unmet |
| `Server.QuotaReachedStopsClean` | src/ndn-helloworld-server.cpp:123-125 | when a request meets the quota and cancels the wait, the handler that follows ends the run with status 0 |
| `Server.ZeroQuotaServesNothing` | src/ndn-helloworld-server.cpp:70-72 | a zero quota returns 0, registers nothing, answers nothing, and no callback can run |
| `Server.QuotaTwoOfThree` | src/ndn-helloworld-server.cpp:98-126 | quota 2 with three requests: exactly the first two are answered with their own names, and the run ends with status 0 |
| `Server.EarlySignalIsError` | src/ndn-helloworld-server.cpp:74-79 | a signal before the quota is met ends the run with status 1 |

## Left out

- src/logger.hpp and every log line. They do console and file I/O, read the environment and format time, and none of it affects counters or decisions. The random word drawn only to name the log file is not modelled either.
- The Boost.Asio machinery (`io_context`, `signal_set`, `steady_timer`, `processEvents`) is not modelled. Each callback is one step, and the loop's delivery order is an arbitrary sequence of enabled callbacks. After `stop()` or `m_io.stop()` no callback is enabled.
- The NDN face is modelled only as ghost logs. `expressInterest`, `put`, `setInterestFilter` and `shutdown` perform no transport. An outcome can only be delivered once, for an Interest the face accepted.
- `onRegisterFailed` (src/ndn-helloworld-server.cpp:128-133) only logs, so it is not modelled.
- `KeyChain::sign` is an opaque external call. The model records only that each response was signed before it was put.
- Name and TLV encoding (`appendSequenceNumber`, `toUri`, `makeStringBlock`) are not modelled. A name is the prefix plus a sequence number, and the content is a string.
- `ndn::random::generateWord32` is an oracle, given as a sequence of candidate words.
- `Client.NdnHelloWorldClient.GetNewNonce`: requires that some candidate is not already pooled. The source's loop draws until one is fresh. With at most 1000 pooled values out of 2^32, such a value exists, but a finite oracle must say so.
- Command-line parsing is not modelled: `boost::program_options`, `--help` and the usage text. The checks start from already-parsed values. Neither `main` checks the prefix: an absent `name-prefix` option leaves the string empty, and the model accepts any prefix string, the empty one included.
- `--quiet` is not modelled. `setQuietLogging()` does not exist in the server class, and `m_wantQuiet` only guards a log line.
- The freshness test reads an undeclared variable (src/ndn-helloworld-server.cpp:105). It is the opaque parameter `freshnessPolicy`.
- `Client.SendStep`: `sent` and `received` are unbounded naturals. The source's `uint64_t` counters would wrap only after 2^64 sends. With a quota they cannot wrap, because the quota is below 2^63.
- `Server.InterestStep`: the server's answered count (`m_nInterestsReceived`, a `uint64_t`) is an unbounded natural too. Without a quota the source's counter would wrap after 2^64 answers, which the model does not capture; with a quota it cannot wrap.
- `Client.FixedCadence`: the timer expiry is an unbounded integer count of milliseconds. The clock's own representation limits are not modelled.
- The exception path of `run()` is only the `threw` flag of `Client.FinishStep` and `Server.FinishStep`. What threw, and which callbacks were lost with it, is not modelled.
- `Server.QuotaReachedStopsClean`: the model states that the cancelled wait's handler stops the server cleanly once it runs. That Boost.Asio schedules that handler is an assumption about the library, not something proved.
