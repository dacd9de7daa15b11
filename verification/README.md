# TermHub: a verified model of its session core

TermHub shares one upstream terminal (serial port, SSH, Telnet, raw TCP, local shell) among many SSH
clients. This project models the core of that in Dafny and proves what it keeps: which bytes can be lost
between clients and upstream and how many, what every client is shown, which status words a session can
send, how often a lost connection is retried, what the Telnet and end-of-line codecs preserve, and how the
session map and the stored configuration stay in agreement.

`dafny verify dfyconfig.toml` checks everything.

## How the source is modelled

Code that runs concurrently is an interleaved step system: a state, an `Action` per thing that can happen
between two awaits, `Enabled`, `Apply`, and runs that are arbitrary sequences of enabled actions. Theorems
are about every run. Code that one task executes on its own is imperative Dafny, with classes for the
objects whose fields it updates, proved against functions whose properties are lemmas.

| files | what they model |
|---|---|
| `Pipeline.dfy` | retry loop, uptime ticker, event pump, input bridge, driver, forwarder and per-client forward tasks over bounded queues (`runner.rs`, `hub.rs`, forward task of `handler.rs`) |
| `PipelineInput.dfy`, `PipelineOutput.dfy`, `PipelineClients.dfy` | conservation and loss bounds towards the upstream and towards the clients |
| `PipelineStatus.dfy`, `PipelineProgress.dfy` | status language, retry bounds; progress, deadlock freedom, cancellation |
| `Runner.dfy` | `run_loop` as a sequential program, shown to send what some run of the step system sends, and the step system to send nothing else; every word of the status language is realised |
| `Backoff.dfy` | the reconnect back-off counter |
| `Telnet.dfy` | IAC blocks, decode loop with carry-over tail, outgoing escaper |
| `Eol.dfy` | end-of-line rewriting and its use per chunk in the serial driver |
| `Hub.dfy`, `Handler.dfy`, `Admission.dfy` | client registry, SSH channel handler, admission under concurrency |
| `Names.dfy`, `SessionMgr.dfy` | session names, registry, password check |
| `Config.dfy`, `Lifecycle.dfy`, `Startup.dfy` | stored configuration, session operations one at a time, the startup loop |
| `LifecycleRuns.dfy`, `LifecycleAlone.dfy`, `LifecycleFlags.dfy`, `LifecycleOrphans.dfy` | the same operations interleaved at every lock, await and save, from any startup: agreement with the stored file; each operation run through; which sessions are launched again; which running tasks nobody owns any more |

Assumptions, where the source calls into libraries:

- An mpsc channel is a bounded FIFO, the broadcast channel a log with a cursor per receiver and a ring of
  fixed capacity (tokio's rounded-up one), the watch channel a cell, a cancellation token a flag that stays
  set. A broadcast sent while nobody listens extends the log all the same; later subscribers start behind it.
- `abort()` takes effect at once. The source does not join the tasks it aborts.
- The bridge never sees its fan-in queue closed: the loop that awaits the bridge owns a sender.
- The fan-in queue closes with the loop: what it still holds then is dropped, and later sends fail.
- A driver may leave a clone of its event sender behind, so events may still arrive between a driver's exit
  and the abort of its pump.
- Somebody holds a status receiver, so every status send takes effect.
- `select!` may pick any ready arm. A save writes the whole file or nothing.
- Decryption inverts encryption. Nothing is assumed of decrypting what was not encrypted.
- Authentication is over before a channel is opened.
- A task of a session is its runner, the accept loop of its SSH server, or its proxy; connections already
  accepted are not tasks here and outlive the cancellation of the loop that accepted them. A cancelled task is
  counted as ended at once; a task may also end by itself at any time. A stop awaits the tasks whose handles it
  has taken.
- An operation may be abandoned between any two of its steps, as happens to the handler of an HTTP request whose
  caller disconnects. Abandoned while it starts its tasks, a create leaves what a failed bind leaves.
- The driver factory succeeds. In the source it panics inside the retry loop for a serial configuration with bad
  parameters (`runner.rs:128`, `app_logic.rs:244`); that loop ends without a terminal status, and the ticker goes on.

## Where the code and its documentation disagree

The model follows the code.

- `EolMode::Cr` is documented to keep CRLF (`eol.rs:10`); the loop writes CR CR for it. `Eol.CrKeepsLinesIffNoCrlf`
  gives the exact condition, `Eol.CrlfBecomesTwoCrs` the smallest input.
- End-of-line rewriting is applied to each chunk on its own (`serial.rs:98`, `serial.rs:108`), so a CRLF cut by a read is
  rewritten as two line ends. `Eol.ChunkedIff` says exactly when that shows.
- A subnegotiation ends at the first adjacent IAC SE; doubled IACs inside it (RFC 855) are not undone.
  `Telnet.DoubledSubnegotiation` says exactly when such a subnegotiation is still skipped whole.
- DONT and WONT are always answered, against "GENERAL CONSIDERATIONS" of RFC 854: `Telnet.RefusalsNeverEnd`, and
  for which streams in `Telnet.ExchangeEndsIffNoNegotiation`.
- The ticker goes on publishing Running while the loop has published Reconnecting
  (`Runner.TickHidesReconnecting`). The status language is therefore about the loop's own sends;
  `PipelineStatus.CellShowsLastSendIff` says exactly when a reader sees the last of them.
- `create_session` overwrites a running session of the same name without cancelling it, and leaves a runner
  behind when the listen address is taken: `Lifecycle.CreateLeavesNoOrphansIff`. An update renamed onto another
  running session does the same: `Lifecycle.UpdateLeavesNoOrphansIff`.
- The startup loop starts a name that is stored twice (up to case) twice and keeps the second:
  `Startup.StartedOrphansIff`, `Startup.AgreesIffDistinct`.
- `update_session` under a new name leaves the old entry behind, stopped: the contract of
  `Lifecycle.AppState.UpdateSession`.
- A stop that waits for its tasks while the session is created again clears the new session's
  `launch_on_startup`: `LifecycleFlags.StopOverlappingCreate`. A stop abandoned half-way leaves it set for a stopped
  session: `LifecycleFlags.AbandonedStop`. Exactly when the flags say what runs is in `LifecycleFlags.FlagsAgreeIff` and
  `LifecycleFlags.QuietFlagsIff`, a condition on the requests in `LifecycleFlags.NoOverlapKeepsFlags`.
- A stop overtaken by a create between cancelling and taking the handles drops the token of a running proxy
  (`LifecycleOrphans.OvertakenStopLosesProxy`) or waits for a session nobody has cancelled
  (`LifecycleOrphans.OvertakenStopWaits`, `LifecycleOrphans.UncancelledStopWaits`); exactly when tasks are lost in
  `LifecycleOrphans.OrphansIff`, and a condition on the requests in `LifecycleOrphans.CarefulLeavesNoOrphans`.
- The full check and the subscription are separate, so `max_clients` can be exceeded:
  `Admission.AdmissionBoundTight`.
- A `max_attempts` of the u32 maximum is never exceeded by the saturating counter:
  `PipelineStatus.LimitAtMaximumNeverReached`.
- A second accepted request on a connection overwrites the client record and the forward task. The first record
  is then never detached by this handler, and the first receiver, whose task is never aborted, stays counted against
  `max_clients` until that task ends by itself (`Handler.SecondShellLoses`, `Handler.TwoShells`). A handler dropped
  without a channel close keeps its record attached as well. `Handler.ClientHandler.ChannelClose` and
  `Handler.ClientHandler.Drop` say exactly when all records and tasks have been given back.

## Model

| member | source | states |
|---|---|---|
| PipelineInput.InputConservation | crates/termhub-core/src/runner.rs:75-141 | in every run over any number of reconnects, what clients sent is consumed1 ++ lost1 ++ consumed2 ++ lost2 ... ++ what is in flight ++ what still waits, in order; each driver loses at most 257 chunks; nothing is in flight once the loop is done |
| PipelineInput.LossBoundTight | crates/termhub-core/src/runner.rs:100-125 | some run loses exactly 257 chunks with its first driver (256 queued, one in the bridge's hand) |
| PipelineInput.InputInvariant | crates/termhub-core/src/runner.rs:100-141 | control and conservation invariants of the input side hold along every run from a state that satisfies them |
| PipelineInput.ArrivedIsSent | crates/termhub-core/src/hub.rs:87-89 | the arrivals recorded by the model are exactly the chunks clients sent, in order |
| PipelineInput.InputGetsThrough | crates/termhub-core/src/runner.rs:100-125 | in every reachable state with a running driver, bridge and driver alone can bring everything sent so far to the driver, in order and without loss |
| PipelineInput.FanInFills | crates/termhub-core/src/hub.rs:87-89 | clients can fill the fan-in queue, for every capacity |
| PipelineOutput.OutputFidelity | crates/termhub-core/src/runner.rs:79-98 | the broadcast log is an interleaving of the chunks each driver run passed on, in run order, with the system lines, in run order; what a run passed on is a prefix of the Output events it emitted, short by at most 257 chunks when it is over |
| PipelineOutput.OutputInvariant | crates/termhub-core/src/hub.rs:97-114 | the invariants behind fidelity hold along every run |
| PipelineOutput.OutputLossTight | crates/termhub-core/src/runner.rs:141 | some run loses exactly 257 output chunks when its pump is aborted |
| PipelineOutput.AcceptedAreSent | crates/termhub-core/src/runner.rs:76-98 | in every run the events accepted from each driver are those it sent, in order, short of at most the one still waiting when its pump was aborted |
| PipelineOutput.SystemLineBytes | crates/termhub-core/src/runner.rs:92-94 | the notice, lag and reconnect lines, byte by byte |
| PipelineOutput.QueueBounds | crates/termhub-core/src/runner.rs:75-76 | fan-in, driver queue, event queue and forwarder queue stay within their capacities in every run |
| PipelineClients.SubscriberAccount | crates/termhub-sshd/src/handler.rs:110-134 | for every subscriber: deliveries + reported losses + pending = broadcasts since it subscribed, its results replay the log, `bytes_out` is the sum of the delivered lengths, the channel got every write in order, short of at most the failed last one |
| PipelineClients.KeepingUpMissesNothing | crates/termhub-sshd/src/handler.rs:110-134 | along any run in which a subscriber is never further behind than the ring reaches, it is told of no loss |
| PipelineClients.FallingBehindLoses | crates/termhub-sshd/src/handler.rs:125-134 | once further behind, it has lost for good: whatever follows, it receives nothing more or is told of at least the broadcasts already overwritten |
| PipelineClients.LossIsBounded | crates/termhub-sshd/src/handler.rs:125-134 | in every run the losses a subscriber is told of are at most what was broadcast since it joined in excess of the ring; none if the ring holds all of it |
| PipelineClients.SameWindowSameBytes | crates/termhub-core/src/hub.rs:82-84 | two subscribers that never lagged got the same chunk for every broadcast both have passed |
| PipelineClients.EndToEnd | crates/termhub-core/src/hub.rs:105-114 | a subscriber that never lagged has received exactly the log from where it joined up to its cursor, whose upstream chunks continue what was broadcast before as a prefix of what the driver runs passed on |
| PipelineClients.ClientsInvariant | crates/termhub-sshd/src/handler.rs:85-145 | the accounting of every subscriber is kept along every run |
| PipelineClients.NothingAfterTheEnd | crates/termhub-sshd/src/handler.rs:88-123 | a forward task can end whenever it lives; what it does as it ends (nothing, or receiving the chunk whose write fails) is the last thing: in every continuation its results, cursor, writes and byte count stay, and nothing else in the session is touched |
| PipelineClients.LiveIffNotEnded | crates/termhub-sshd/src/handler.rs:85-138 | in every run a subscription lives iff it has begun and its task was neither ended nor had a failed write of a chunk; a failed lag line ends nothing |
| PipelineClients.JoinsBehindTheLog | crates/termhub-sshd/src/handler.rs:73 | a client can join at any moment, starts with nothing, and starts behind everything broadcast before, for good |
| PipelineClients.CatchesUp | crates/termhub-sshd/src/handler.rs:110-134 | in every reachable state a live subscriber can, on its own, receive and write all that the ring still holds for it, in order, after the lag line if something was overwritten, and is then told of exactly that much |
| PipelineStatus.StatusLanguage | crates/termhub-core/src/runner.rs:46-190 | every finished run has sent Starting (Running Reconnecting)* and then Stopped, Running Stopped, Running Failed, or, after a Reconnecting, Failed; it sends nothing more whatever follows, and the last word stays in the status cell |
| PipelineStatus.StatusInvariant | crates/termhub-core/src/runner.rs:68-190 | what has been sent at each point of the loop, along every run |
| PipelineStatus.NothingAfterDone | crates/termhub-core/src/runner.rs:143-188 | a loop that is done stays done and silent, and takes no more input |
| PipelineStatus.EveryEndHasItsCause | crates/termhub-core/src/runner.rs:143-188 | in every finished run the last two words tell the cause: after Running a clean end or a loss without auto-reconnect gives Stopped and a fatal error Failed with its reason; after Reconnecting(n) it is Failed with the loss iff n exceeds the limit, and Stopped by cancellation otherwise; after Starting it is Stopped by cancellation, with no driver created |
| PipelineStatus.NoTickAfterTheStop | crates/termhub-core/src/runner.rs:55-66 | once the ticker has seen the cancellation or the loop is done, it never publishes again |
| PipelineStatus.TickerRuns | crates/termhub-core/src/runner.rs:55-66 | until then, from the first status on, it always can |
| PipelineStatus.CellShowsLastSendIff | crates/termhub-core/src/runner.rs:54-66 | in every run the watch cell holds the loop's last word iff that word is Running or the ticker has not ticked since |
| Runner.TickHidesReconnecting | crates/termhub-core/src/runner.rs:59-63 | a run after which the loop's last word is Reconnecting and the cell holds Running |
| PipelineStatus.PublishedAttempts | crates/termhub-core/src/runner.rs:164-170 | for every placement of the pump's resets, the published attempt is the number of losses since the last reset, this one included (saturating), and the sleep is the delay that belongs to it |
| PipelineStatus.BoundedRetries | crates/termhub-core/src/runner.rs:171-179 | with a limit m below the u32 maximum, at most m + 1 drivers are created along any stretch of any run without a handled Connected event, and the losses counted since the last reset are at most m + 1 |
| Runner.RetryBoundTight | crates/termhub-core/src/runner.rs:171-179 | for every such limit m some run without a reset creates exactly m + 1 drivers and ends |
| PipelineStatus.LimitAtMaximumNeverReached | crates/termhub-core/src/runner.rs:171-172 | with the limit at the u32 maximum the loop always sleeps and retries |
| PipelineStatus.CountersCount | crates/termhub-core/src/runner.rs:84-87 | the counters the bounds speak of count driver creations and losses along a run |
| Pipeline.OutsideIsFree | crates/termhub-core/src/runner.rs:127-138 | the model restricts neither cancellation, nor what a driver returns or sends, nor whether a write to a client fails |
| PipelineProgress.DeadlockFreedom | crates/termhub-core/src/runner.rs:82-97 | from every reachable state, under every schedule, while the driver's send has not gone through, pump and forwarder take at most 1540 steps, and a waiting driver always finds its send or one of theirs enabled |
| PipelineProgress.DrainBoundTight | crates/termhub-core/src/runner.rs:75-98 | some run, with every queue on the way out full and the driver waiting, leads to exactly 1540 such steps |
| PipelineProgress.BlockedDriverIsReleased | crates/termhub-core/src/hub.rs:105-113 | in every reachable state with a driver waiting to send, at most four pump and forwarder steps let it through, whatever the subscribers do |
| PipelineProgress.DrainBounded | crates/termhub-core/src/runner.rs:82-97 | steps of pump and forwarder are bounded by the backlog until the next send |
| PipelineProgress.DrainEnabled | crates/termhub-core/src/hub.rs:105-113 | while anything is queued, pump or forwarder can step, without regard to any subscriber |
| PipelineProgress.BridgeAlwaysEnds | crates/termhub-core/src/runner.rs:105-140 | after a driver's exit, loop and bridge take at most five steps until the pump is aborted and always have one to take, also when the bridge was blocked on a full queue |
| PipelineProgress.CancelledLoopFinishes | crates/termhub-core/src/runner.rs:46-190 | once cancelled and with no driver running (none created yet, or the last one returned), under every schedule, the loop creates no driver, needs at most twelve steps, is never stuck, and ends in a terminal status, whatever the driver returned |
| PipelineProgress.AtMostOneDriverAfterCancel | crates/termhub-core/src/runner.rs:69-129 | after `cancel` fires at most one more driver is created, and none if the loop had not just passed its check |
| Runner.Runner.RunDriver | crates/termhub-core/src/runner.rs:127-141 | one driver's run sends Running, zeroes the counter iff a Connected event was handled, and corresponds to a stretch of a legal run of the step system |
| Runner.Runner.Announce | crates/termhub-core/src/runner.rs:161-170 | a loss is counted once; delay and attempt belong to the losses before and including it |
| Runner.Runner.GiveUpOrSleep | crates/termhub-core/src/runner.rs:171-187 | the loop finishes iff the attempt exceeds the limit or the sleep is cancelled, with the word that belongs to it |
| Runner.Runner.Reconnect | crates/termhub-core/src/runner.rs:154-188 | after a loss: the statuses sent, whether the loop ends, and the counter left behind |
| Runner.Runner.Conclude | crates/termhub-core/src/runner.rs:143-189 | for every driver result the statuses sent, whether the loop ends, and the counter left behind; still a legal run, and a finished word when it ends |
| Runner.Runner.RunLoop | crates/termhub-core/src/runner.rs:46-190 | the loop as a program sends the script of its iterations, which a legal run of the step system sends as well, and a finished script is a word of the status language |
| Runner.EveryRunIsScripted | crates/termhub-core/src/runner.rs:68-190 | conversely, whatever tasks, clients and drivers do in whatever order, what a finished loop has sent is the script of some iterations: the interleaved system refines the sequential loop |
| Runner.LanguageIsExact | crates/termhub-core/src/runner.rs:68-190 | for every number of reconnects, every ending the status language allows is reached by some run |
| Backoff.BackoffCounter.NextDelay | crates/termhub-core/src/backoff.rs:9-20 | returns the delay of the losses so far, counts one more, saturates, and adds to the total wait |
| Backoff.BackoffCounter.Reset | crates/termhub-core/src/backoff.rs:22-24 | no losses are counted any more |
| Backoff.DelayIsCappedPower | crates/termhub-core/src/backoff.rs:10-17 | the clamped shift is min(30, 2^(n-1)) for every n >= 1, and 1 for n = 0 |
| Backoff.DelayMonotone | crates/termhub-core/src/backoff.rs:9-20 | delays never decrease between resets |
| Backoff.TotalWaitClosedForm | crates/termhub-core/src/backoff.rs:9-20 | k consecutive losses wait 2^(k-1) seconds up to the sixth, 32 + 30(k-6) from there on |
| Telnet.ProcessIacBlock | crates/termhub-drivers/src/telnet.rs:17-46 | the scanning loop computes the block function the theorems below are about; FF FD o and FF FE o are answered FF FC o, FF FB o and FF FC o are answered FF FE o, nothing else is answered |
| Telnet.NegotiationBytes | crates/termhub-drivers/src/telnet.rs:8-26 | in literal bytes, for every option and whatever follows: DO and DONT draw WONT, WILL and WONT draw DONT, and decoding goes on behind them |
| Telnet.SubnegotiationBytes | crates/termhub-drivers/src/telnet.rs:27-36 | from FF FA on everything up to the first FF F0 is skipped, whatever follows |
| Telnet.CommandBytes | crates/termhub-drivers/src/telnet.rs:17-39 | any other command is skipped, FF FF is one data byte FF, every other byte is data |
| Telnet.PendingVerb | crates/termhub-drivers/src/telnet.rs:17-46 | a lone FF, and a verb without its option, are kept for the next read |
| Telnet.PendingSubnegotiation | crates/termhub-drivers/src/telnet.rs:27-36 | so is FF FA with no FF F0 after it |
| Telnet.BlockStuckIffIncomplete | crates/termhub-drivers/src/telnet.rs:17-46 | nothing is consumed iff the command is a lone IAC, a verb without option, or a subnegotiation without IAC SE from offset 2; otherwise at least two bytes within the buffer are |
| Telnet.BlockStable | crates/termhub-drivers/src/telnet.rs:17-46 | a block accepted once is accepted with the same result on every extension of the buffer |
| Telnet.DecodeBuffer | crates/termhub-drivers/src/telnet.rs:84-107 | the decode loop terminates and yields data, replies and tail of the decoding function |
| Telnet.DecodeResidue | crates/termhub-drivers/src/telnet.rs:86-107 | after every read the tail is empty or exactly an incomplete command, and is the end of the buffer |
| Telnet.DecodeSplit | crates/termhub-drivers/src/telnet.rs:83-107 | decoding in two parts with the tail carried over is decoding at once |
| Telnet.ChunkingInvariance | crates/termhub-drivers/src/telnet.rs:83-107 | however a stream is cut into reads: same data, same replies, same final tail |
| Telnet.TelnetDriver.Read | crates/termhub-drivers/src/telnet.rs:78-114 | after every read the Output events, replies and tail are those of the whole stream decoded at once; no empty Output is sent |
| Telnet.TelnetDriver.Send | crates/termhub-drivers/src/telnet.rs:115-132 | the wire grows by the escaped chunk, decoding state untouched |
| Telnet.EscapeOutgoing | crates/termhub-drivers/src/telnet.rs:119-126 | the loop computes the escaped chunk, which decodes to exactly the chunk, with no reply and no tail |
| Telnet.EscapeInverse | crates/termhub-drivers/src/telnet.rs:119-126 | decoding inverts escaping, for all byte strings |
| Telnet.EscapeLength | crates/termhub-drivers/src/telnet.rs:119-126 | escaping adds one byte for every FF and nothing else |
| Telnet.EscapedStreamDecodes | crates/termhub-drivers/src/telnet.rs:115-132 | several writes, cut into reads anywhere, are received as their concatenation |
| Telnet.SubnegotiationBlock | crates/termhub-drivers/src/telnet.rs:27-36 | a printed subnegotiation is skipped whole iff its payload has no IAC SE pair, and is never answered |
| Telnet.PrintThenDecode | crates/termhub-drivers/src/telnet.rs:86-105 | any sequence of data, commands, negotiations and pair-free subnegotiations, printed per "TELNET COMMAND STRUCTURE" of RFC 854, decodes to its data, one refusal per negotiation in order, and no tail |
| Telnet.PrintThenDecodeChunked | crates/termhub-drivers/src/telnet.rs:83-107 | the same under every chunking |
| Telnet.EveryStreamParses | crates/termhub-drivers/src/telnet.rs:86-107 | conversely, every byte stream is the print of well-formed items plus the tail, and what was decoded is the data and refusals of those items |
| Telnet.QuietIffNoNegotiation | crates/termhub-drivers/src/telnet.rs:22-26 | a stream draws no reply iff it contains no negotiation |
| Telnet.ExchangeEndsIffNoNegotiation | crates/termhub-drivers/src/telnet.rs:22-26 | two such decoders exchange one refusal per negotiation of the first stream in every round, for ever; the exchange is empty iff the stream contains no negotiation |
| Telnet.RefusalsNeverEnd | crates/termhub-drivers/src/telnet.rs:24-26 | the shape of that exchange for one refusal: DONT and WONT alternate |
| Telnet.DoubledSubnegotiation | crates/termhub-drivers/src/telnet.rs:27-36 | a payload with doubled IACs is skipped as one block iff the plain payload has no IAC SE pair |
| Eol.TransformBytes | crates/termhub-drivers/src/eol.rs:25-62 | the lookahead loop computes the transform the theorems below are about, in all modes |
| Eol.BreakBytes | crates/termhub-drivers/src/eol.rs:35-57 | what each mode writes for CR LF (13, 10), a lone CR and a lone LF, whatever follows |
| Eol.OtherBytes | crates/termhub-drivers/src/eol.rs:58 | every other byte stays, in every mode |
| Eol.CrlfIsJoin | crates/termhub-drivers/src/eol.rs:43-53 | Crlf mode is: split into lines, join with CRLF |
| Eol.LfKeepsLines | crates/termhub-drivers/src/eol.rs:35-42 | Lf mode keeps the list of lines of every input |
| Eol.CrlfKeepsLines | crates/termhub-drivers/src/eol.rs:43-53 | Crlf mode keeps the list of lines of every input |
| Eol.CrlfAbsorbs | crates/termhub-drivers/src/eol.rs:43-53 | Crlf is idempotent, and crlf(lf(x)) = crlf(x) |
| Eol.LfAbsorbed | crates/termhub-drivers/src/eol.rs:35-42 | Lf is idempotent, and lf(crlf(x)) = crlf(x) |
| Eol.LfPointwise | crates/termhub-drivers/src/eol.rs:35-42 | Lf mode keeps length and every byte but a CR not followed by LF, which becomes LF |
| Eol.LfFixedPoints | crates/termhub-drivers/src/eol.rs:35-42 | Lf leaves a text alone iff every CR in it is followed by LF |
| Eol.CrlfLeavesNoLoneCr | crates/termhub-drivers/src/eol.rs:43-53 | after Crlf mode every CR is followed by LF |
| Eol.CrlfLength | crates/termhub-drivers/src/eol.rs:43-53 | the length grows by the number of lone CRs and lone LFs |
| Eol.CrPointwise | crates/termhub-drivers/src/eol.rs:54-57 | Cr mode turns every LF into CR and keeps everything else in place |
| Eol.CrLineCount | crates/termhub-drivers/src/eol.rs:54-57 | Cr mode adds one line per CRLF |
| Eol.CrKeepsLinesIffNoCrlf | crates/termhub-drivers/src/eol.rs:9-11 | Cr mode keeps the list of lines iff CR LF stands nowhere in the text |
| Eol.CrlfBecomesTwoCrs | crates/termhub-drivers/src/eol.rs:54-57 | the documented "CRLF is kept" fails on CRLF itself |
| Eol.DistributesIff | crates/termhub-drivers/src/eol.rs:31-60 | transform(a ++ b) = transform(a) ++ transform(b) iff the mode is AsIs or Cr, or the cut splits no CRLF |
| Eol.ChunkedIff | crates/termhub-drivers/src/serial.rs:92-111 | transforming chunk by chunk gives the transform of the stream iff the mode is AsIs or Cr, or no boundary splits a CRLF |
| Eol.SerialDriver.Read | crates/termhub-drivers/src/serial.rs:92-102 | Output events are the transformed reads; together they are the transform of the stream iff no read boundary splits a CRLF (AsIs, Cr: always) |
| Eol.SerialDriver.Write | crates/termhub-drivers/src/serial.rs:104-112 | the same towards the port, for the writes |
| Names.CaseDoesNotMatter | crates/termhub-core/src/session_mgr.rs:11-22 | names equal up to case are both refused or have the same key |
| Names.LowerEqualIff | crates/termhub-core/src/session_mgr.rs:21 | two names have the same lower-cased form iff they differ at most in the case of letters A to Z |
| Names.LowerCodes | crates/termhub-core/src/session_mgr.rs:21 | lower-casing adds 32 to the codes 65 to 90 and changes no other |
| Names.AllowedCodes | crates/termhub-core/src/session_mgr.rs:12-22 | a name is accepted iff it is not empty and has only letters, digits, dot, underscore and hyphen, by code |
| SessionMgr.ConstantTimeEq | crates/termhub-core/src/session_mgr.rs:96-105 | the OR-accumulating byte loop decides equality |
| SessionMgr.UniqueIgnoringCase | crates/termhub-core/src/session_mgr.rs:44-69 | no two registered entries have names that differ in case only |
| SessionMgr.LookupIgnoresCase | crates/termhub-core/src/session_mgr.rs:76-79 | a lookup finds an entry iff it is registered under the name up to case |
| SessionMgr.SessionMgr.Register | crates/termhub-core/src/session_mgr.rs:44-69 | refuses exactly invalid names and names taken up to case, and changes nothing then; otherwise adds one entry with an empty client registry |
| SessionMgr.SessionMgr.Unregister | crates/termhub-core/src/session_mgr.rs:71-74 | removes and returns the entry of that name up to case, if any |
| SessionMgr.SessionMgr.Get | crates/termhub-core/src/session_mgr.rs:76-79 | returns the entry a case-insensitive lookup finds |
| SessionMgr.SessionMgr.Authenticate | crates/termhub-core/src/session_mgr.rs:82-89 | succeeds iff some entry matches name up to case and password exactly, and returns such an entry |
| Hub.Hub.SubscribeOutput | crates/termhub-core/src/hub.rs:82-84 | a new receiver, counted once |
| Hub.Hub.SendInput | crates/termhub-core/src/hub.rs:87-89 | a completed send has put exactly that chunk at the end of a queue within its capacity, or found the queue closed |
| Hub.Hub.DropReceiver | crates/termhub-core/src/hub.rs:92-94 | a receiver dropped is no longer counted, dropping it again changes nothing |
| Hub.ClientRegistry.Attach | crates/termhub-core/src/clients.rs:31-45 | the new id exceeds every id ever issued, so none is reused; the record starts with zero counters |
| Hub.ClientRegistry.Detach | crates/termhub-core/src/clients.rs:47-49 | removes that id and no other; issued ids stay issued |
| Hub.ClientRegistry.Kick | crates/termhub-core/src/clients.rs:51-58 | fires the token of exactly the client named, iff it is attached |
| Handler.ExecKeepsLines | crates/termhub-sshd/src/handler.rs:221-232 | the command sent upstream is the request, unchanged if it ends in LF, with LF added if it ends in CR and CR LF otherwise; it has the lines of the request, the last one closed, and no extra one |
| Handler.ClientHandler.StartShellOrExec | crates/termhub-sshd/src/handler.rs:37-147 | refused without effect on hub and registry when unauthenticated or full; otherwise one fresh record, one fresh forward task and receiver, the initial input and its byte count; a record or task held before is lost to the handler; alone, never beyond `max_clients` |
| Handler.ClientHandler.ExecRequest | crates/termhub-sshd/src/handler.rs:215-236 | the fan-in queue gets the closed command line once, counted to a fresh record, or nothing when empty or refused |
| Handler.ClientHandler.AuthPassword | crates/termhub-sshd/src/handler.rs:154-170 | accepted iff the registry holds an entry with this name up to case and this password, which the handler then works on; a refusal changes nothing |
| Handler.ClientHandler.Data | crates/termhub-sshd/src/handler.rs:238-251 | input is queued whole, or lost to a closed queue, and counted to the record, if there is one, either way; receivers and registry are untouched |
| Handler.ClientHandler.ChannelEof | crates/termhub-sshd/src/handler.rs:253-271 | an exec channel gives back record, task and receiver and reports status 0; a shell channel is left unchanged |
| Handler.ClientHandler.ChannelClose | crates/termhub-sshd/src/handler.rs:273-286 | the handler holds nothing any more; over its life it detaches each record and aborts each forward task at most once, and has done so for all it ever had iff no request was accepted while it held one |
| Handler.ClientHandler.Drop | crates/termhub-sshd/src/handler.rs:289-295 | the forward task it holds is aborted and that receiver freed, the record stays attached: all tasks have been aborted iff none was lost, all records detached iff it held none and none was lost |
| Handler.SecondShellLoses | crates/termhub-sshd/src/handler.rs:63-146 | any handler that holds a record and a forward task and is granted another request leaves the record in the registry and the receiver in the hub, and will never give them back |
| Handler.TwoShells | crates/termhub-sshd/src/handler.rs:205-213 | the sequence from login to close that loses a record and a receiver |
| Admission.AdmissionBound | crates/termhub-sshd/src/handler.rs:52-73 | with at most p requests between check and subscription, live subscribers never exceed max_clients - 1 + p; with p = 1 never max_clients |
| Admission.AdmissionBoundTight | crates/termhub-sshd/src/handler.rs:52-73 | for every limit and every p some run reaches exactly that many |
| Admission.PlacesBalance | crates/termhub-sshd/src/handler.rs:52-73 | in every run receivers held are subscriptions less departures, and requests between check and subscription are passed checks less those given up or subscribed |
| Config.RewritePasswords | crates/termhub-core/src/persist.rs:18-37 | for every session the stored password is the encryption (decryption) of the password, an SSH upstream keeps host, port and user and has its password rewritten likewise, any other upstream and every other field is equal |
| Config.MapAllRewrites | crates/termhub-core/src/persist.rs:18-37 | the same of the list function the other theorems speak of |
| Config.SaveThenLoad | crates/termhub-core/src/persist.rs:39-68 | what is saved is what is loaded |
| Lifecycle.AppState.PersistNow | crates/termhub-app/src/app_logic.rs:124-138 | when the save succeeds the file holds every current configuration once, with exactly its passwords encrypted, and read back it is a permutation of them; when it fails the file is as it was and the error is returned |
| Lifecycle.AppState.CreateSession | crates/termhub-app/src/app_logic.rs:185-299 | outcome, new map, surviving tasks and file for every case: bad user, busy address, failed save, proxy, session; the map stays sound |
| Lifecycle.CreateCases | crates/termhub-app/src/app_logic.rs:185-299 | those cases written out: which input leads to which result, which tasks run, and what is filed |
| Lifecycle.InsertedFilesOnly | crates/termhub-app/src/app_logic.rs:189-295 | what is filed has every field of the given configuration, with the flag set, and handles of its own; no other entry changes |
| Lifecycle.AppState.StopSession | crates/termhub-app/src/app_logic.rs:301-345 | exactly the tasks of that session stop; its entry loses its handles and its flag and nothing else, no other entry changes, and unless the save fails all is stored |
| Lifecycle.StoppedStopsOnly | crates/termhub-app/src/app_logic.rs:317-341 | field by field: a stop leaves name, password, user, address, auto-reconnect, terminal size and upstream of the entry, and every other entry |
| Lifecycle.AppState.DeleteSession | crates/termhub-app/src/app_logic.rs:347-353 | the entry and its tasks are gone, the rest is unchanged and stored; with the first save failing the entry stays, stopped; with the second failing the file still lists it stopped |
| Lifecycle.AppState.RestartSession | crates/termhub-app/src/app_logic.rs:355-370 | the session comes back under its old configuration with fresh tasks, or stays stopped; unknown names change nothing |
| Lifecycle.AppState.UpdateSession | crates/termhub-app/src/app_logic.rs:372-387 | an empty password keeps the old one, every other field is the new one; the old entry is stopped and stays when the name changes |
| Lifecycle.StopLeavesNoOrphans | crates/termhub-app/src/app_logic.rs:301-345 | if every running task belongs to an entry, it still does after a stop carried out alone |
| Lifecycle.CreateLeavesNoOrphansIff | crates/termhub-app/src/app_logic.rs:249-295 | every running task still belongs to an entry after a create carried out alone iff the address was free and no session of that name was running |
| Lifecycle.UpdateLeavesNoOrphansIff | crates/termhub-app/src/app_logic.rs:372-387 | after an update carried out alone, iff the address was free and the session was not renamed onto another running one |
| Lifecycle.RestartLeavesNoOrphansIff | crates/termhub-app/src/app_logic.rs:355-370 | after a restart carried out alone, iff the address was free |
| Lifecycle.ReplaceOrphans | crates/termhub-app/src/app_logic.rs:285-295 | overwriting an entry orphans tasks iff it held any |
| Startup.StartAll | crates/termhub-app/src/main.rs:59-151 | succeeds iff every stored session is not launched, or is a proxy, or has a valid user name and finds its address free when its turn comes, and then yields map, running tasks and next token of the state the lemmas below are about |
| Startup.StartedIsSound | crates/termhub-app/src/main.rs:59-151 | startup leaves a map in which keys, shapes, flags and token ownership are as every operation expects |
| Startup.StartedIsRebuilt | crates/termhub-app/src/main.rs:59-151 | the map holds one entry for every stored name, the last stored, and no other |
| Startup.StartedOrphansIff | crates/termhub-app/src/main.rs:139-149 | every task started belongs to an entry iff no launched session is stored again under the same name up to case |
| Startup.AgreesIffDistinct | crates/termhub-app/src/main.rs:59-151 | the map agrees with the file it was built from iff no name is stored twice up to case |
| Startup.Boot | crates/termhub-app/src/main.rs:59-151 | the application state set up from any stored file satisfies the invariant of `AppState` |
| Startup.ReloadRebuilds | crates/termhub-app/src/main.rs:59-151 | from a well-formed map whose flags agree with what runs, and a file that agrees with it, the startup loop rebuilds keys, configurations and shapes |
| Startup.ReloadIff | crates/termhub-app/src/main.rs:59-151 | it does, with no name stored twice, iff the flags agree with what runs and the file with the map |
| LifecycleRuns.StartupBoots | crates/termhub-app/src/main.rs:59-151 | startup from any startable file leaves a state from which the run theorems speak |
| LifecycleRuns.ShapesAlways | crates/termhub-app/src/state.rs:12-24 | from any startup, in every interleaving, saves failing and operations abandoned or not, every entry is filed under its lower-cased name and is stopped, a running proxy or a running session |
| LifecycleRuns.WriteThroughAgreement | crates/termhub-app/src/app_logic.rs:124-387 | from any startup, in every interleaving, saves failing and operations abandoned or not, the stored list is a permutation of the current configurations iff the file had no name twice or a save has succeeded, and the configurations are those of that moment |
| LifecycleRuns.SavedAgreement | crates/termhub-app/src/app_logic.rs:124-387 | in particular whenever nothing has changed since a save succeeded, and whenever no save is due and none failed or was abandoned since one succeeded |
| LifecycleRuns.StoredEncrypted | crates/termhub-core/src/persist.rs:18-27 | in every interleaving, once a save has succeeded the file holds the configurations of that moment, each once, with exactly their passwords encrypted |
| LifecycleAlone.CreateAlone | crates/termhub-app/src/app_logic.rs:185-299 | from any state, with anything else in flight, the steps of a create, run through, come to the result, map, tasks and file of `AppState.CreateSession`, in each of its cases |
| LifecycleAlone.StopAlone | crates/termhub-app/src/app_logic.rs:301-345 | the steps of a stop likewise: the entry loses handles and flag and nothing else; its wait never blocks |
| LifecycleAlone.DeleteAlone | crates/termhub-app/src/app_logic.rs:347-353 | the steps of a delete likewise: the entry and its tasks are gone, and the map is stored; with the first save failing the entry stays, stopped; with the second failing the file lists it stopped |
| LifecycleAlone.RestartAlone | crates/termhub-app/src/app_logic.rs:355-370 | the steps of a restart likewise: the session is stopped and created again under the configuration it had; an unknown name changes nothing |
| LifecycleAlone.UpdateAlone | crates/termhub-app/src/app_logic.rs:372-387 | the steps of an update likewise: the old name is stopped and the given configuration created, an empty password replaced by the old one |
| LifecycleAlone.EndsAlone | crates/termhub-app/src/app_logic.rs:301-345 | any running task may end by itself at any moment, which changes nothing else |
| LifecycleAlone.AbandonAlone | crates/termhub-app/src/app_logic.rs:185-387 | any operation in flight may be abandoned at any moment, which changes nothing else |
| LifecycleFlags.FlagsAgreeIff | crates/termhub-app/src/app_logic.rs:301-345 | from any startup, in every interleaving, at every moment: `launch_on_startup` is set for exactly the running sessions iff the sessions whose flag was cleared since they were filed are exactly the stopped ones |
| LifecycleFlags.QuietFlagsIff | crates/termhub-app/src/app_logic.rs:301-345 | with no operation in flight and no stop abandoned half-way: iff no running session had its flag cleared since its entry was filed |
| LifecycleFlags.NoOverlapKeepsFlags | crates/termhub-app/src/app_logic.rs:331-342 | it is if no create, restart or update of a session overlaps a stop, delete, restart or update of the same session, and no stop is abandoned half-way |
| LifecycleFlags.SequentialFlags | crates/termhub-app/src/app_logic.rs:301-345 | in particular after operations carried out one after the other |
| LifecycleFlags.RestartRestoresIff | crates/termhub-app/src/main.rs:59-151 | from any startup, after any run, a restart of the application brings back the same sessions, no name stored twice, iff the flags agree with what runs and the file with the configurations |
| LifecycleFlags.ReloadRestores | crates/termhub-app/src/main.rs:59-151 | it does after any run without overlap, abandoned stop or missed save, and in a state from which the same holds again |
| LifecycleFlags.EveryLaunchRestores | crates/termhub-app/src/main.rs:59-151 | over any number of launches, each brings back the sessions the one before ended with |
| LifecycleFlags.StopOverlappingCreate | crates/termhub-app/src/app_logic.rs:331-342 | a create during a stop can leave a running session that is not launched at startup |
| LifecycleFlags.AbandonedStop | crates/termhub-app/src/app_logic.rs:331-342 | a stop abandoned while it waits leaves a stopped session that is launched at startup |
| LifecycleOrphans.OrphanStep | crates/termhub-app/src/app_logic.rs:185-353 | exactly which running tasks a step leaves without an owner: those without one before, and those of a failed bind, of a replaced or removed running entry, of a proxy whose token is dropped, of an abandoned operation |
| LifecycleOrphans.OrphansOfRun | crates/termhub-app/src/app_logic.rs:185-353 | along any run, a task is without an owner at the end iff it was at the start or was lost on the way, and has not ended by itself |
| LifecycleOrphans.OrphansIff | crates/termhub-app/src/app_logic.rs:185-353 | from any startup, in every interleaving, when no operation is in flight every running task belongs to an entry iff all tasks lost on the way or at startup have ended by themselves |
| LifecycleOrphans.CarefulLeavesNoOrphans | crates/termhub-app/src/app_logic.rs:301-345 | no task is lost and no stop waits for an uncancelled task if addresses are free, no request creates a session that runs or that another request in flight stops or creates, and no create is abandoned between starting and filing its tasks |
| LifecycleOrphans.OvertakenStopLosesProxy | crates/termhub-app/src/app_logic.rs:303-330 | a run without bind failure or overwritten running entry that ends with a running proxy no entry knows |
| LifecycleOrphans.OvertakenStopWaits | crates/termhub-app/src/app_logic.rs:303-336 | a run in which a stop comes to wait for tasks nobody has cancelled |
| LifecycleOrphans.UncancelledStopWaits | crates/termhub-app/src/app_logic.rs:331-336 | from any such state, it waits in every continuation in which those tasks do not end by themselves and it is not abandoned |

## Left out

- Sockets, serial ports, PTYs, child processes and SSH transport: a driver is any source of events that ends in Ok, Fatal or IoLost.
- Telnet.DecodeBuffer: collects the replies of one read instead of writing each as it arises, so a socket write that fails half-way through a buffer is not modelled; neither is the 4096-byte limit of a read.
- Pump, bridge, forwarder and forward tasks as `while` loops of their own: their turns are steps of the interleaved system, since every claim about them is about all interleavings.
- Runner.Runner.RunLoop: what the concurrent tasks do to one iteration is a parameter, and so is the number of iterations looked at; all interleavings are covered by the step system it is tied to in both directions.
- The forward task's kick, silence and channel-closed branches: any of them is one step that ends the subscription; the lines and exit status it writes then are not modelled.
- Handler.ClientHandler.StartShellOrExec: what other clients do during the waits between check, attach, initial input and subscription is in the admission step system, not in the method.
- Hub.Hub.SendInput: while it waits, the session's bridge may take chunks and the session may end; other clients do nothing meanwhile. All interleavings are in `Pipeline.dfy`.
- Telnet CR NUL and CR LF rules of the network virtual terminal: the driver does not implement them.
- Startup.StartAll: the extra session of the `TERMHUB_DEV_SERIAL` variable is absent.
- Server and user-interface sections of the stored configuration: a save writes fixed values there.
- TOML, file paths, the rename that makes a save atomic, host keys, and the platform's secret store.
- Lower-casing beyond ASCII: the source lower-cases ASCII letters only, as does the model; strings are sequences of characters without encoding.
- Wrap-around of 64-bit client ids and byte counters: they are unbounded here.
- Wall-clock time: sleeps and ticks are steps that may happen at any moment, uptime values are absent.
- `SubscriberId` allocation, registry and client listings, driver factory and label helpers: each is a counter, a read-out or a one-branch mapping with no state of its own to keep.
- HTTP API, CLI, desktop commands, tray and web interface.
