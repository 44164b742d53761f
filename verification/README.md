# Agent On Demand: a verified model

Agent On Demand runs coding agents in remote sandboxes for its API's users. A
web process changes session rows, a worker provisions sandboxes and runs turns,
a sink batches a command's output into an append-only log, a stream endpoint
replays and tails that log as server-sent events, and SDKs read it across
dropped connections. This project models that behaviour in Dafny and proves
what it keeps. `dafny verify dfyconfig.toml` checks everything.

## Parts

| part | modules |
|---|---|
| shared | `Prelude`, `Lines` (splitting a stream into lines as it arrives), `Decimal`, `Json`, `Dicts` |
| session and turn protocol | `Protocol` (the transition system), `TurnAllocation`, `JointInvariant`, `Races`, `SingleSaves`, `Requests`, `SessionService` (the views and the executor against it) |
| output pipeline | `LogSink`, `StreamFormat`, `Wire`, `LogTail`, `TailProperties`, `KeepAlive`, `Frames`, `Sse` (a reader after WHATWG HTML section 9.2.6, and one that seeds its id buffer), `FrameReading`, `Delivery`, `Redelivery`, `EndToEnd` |
| clients | `TsClient`, `StreamHandle`, `SdkResume`, `SdkDelivery`, `LineClient`, `LineDelivery`, `LineLosses`, `LineRuns` (the client written out in the documentation), `Formatter` |
| trace emitter | `Trace`, `TraceLines` |
| shell text | `Shell` (a reader after POSIX.1-2017 XCU sections 2.2 and 2.3, and `shlex.quote`), `ShellCommands`, `ShellRun` (section 2.9.1), `EnvFile`, `ScriptText`, `Packages`, `ProvisionScript`, `ScriptLaws` |
| versioned resources | `Versioned`, `Metadata`, `Agents`, `Environments`, `FieldHistory` |
| provisioning | `Provisioning`, `Cleanup` (with the protocol) |

Code that works step by step is a class or a method with a loop, proved against
a function; what the source promises is then proved of the function, for every
input, run or schedule. Everything outside is a parameter: the JSON codec (an
injective printer of printable ASCII with a partial parser), the decoder of a
chunk, clocks, the runtime's trace adapter, what each provisioning stage does,
when threads run, when connections drop.

## Assumptions

- A web view's locked transaction is one step, with the enqueue that follows it.
- The theorems of `JointInvariant`, and `Races.GroupsKeepTermination`, take
  each worker guard with the saves it guards as one step. The code does not
  lock there; `Races` says exactly what is lost without it, and `SingleSaves`
  by how much the quota can be exceeded. `TurnAllocation`, `SingleSaves` and
  `Cleanup` need no such assumption.
- `Delivery.ExactlyOnceDelivery` is about a reader that starts each
  connection's id buffer from its last event id. The section of the HTML
  standard starts it empty; for that reader the exact condition is
  `Delivery.ExactlyOnceIff`.
- `EndToEnd`: a turn's id and its number name the same turn in the log's output
  rows, and that turn's rows are what its sink persisted.
- Log ids increase in commit order and the log is only appended to.
- Log ids, versions and JSON numbers are integers of any size.
- No proper beginning of a JSON object's text is JSON (`Json.Codec.Delimited`);
  the hand-written client's theorems use it.
- Decoding with replacement is one function per chunk, so a character split
  over two chunks is not restored; equality is claimed chunk by chunk.
- Values printed for a shell contain no NUL, and names are identifiers, as
  validation leaves them. The shell starts with the environment its login files
  left it, all of it exported.

## Where the code does less than its text says

- Resuming by `Last-Event-ID` is meant to work with any SSE client that follows
  the standard, without an event sent twice (thoughts/plans). The start frame
  of every connection has no id, so a reader that begins with an empty id
  buffer, as the HTML standard says, forgets its cursor when it is cut before
  the first frame that has one, and is sent rows again:
  `Delivery.ExactlyOnceIff`, `Redelivery.EmptyBufferDoublesARow`.
- The streaming page's hand-written client takes an id as soon as its line is
  there, and a response that ends cleanly also gives it the line that was cut.
  It loses a row if and only if a response ends cleanly between the last digit
  of the id and the data of a row it has not been given. It goes back to rows
  it has if and only if one ends cleanly inside digits that name a number below
  such a row: `LineLosses.MissesNothingIff`, `LineDelivery.ExactIff`,
  `LineRuns.EarlyIdSkipsARow`, `LineRuns.PartOfAnIdDoublesARow`. A body that
  breaks off, or ends inside an event's JSON or right behind "id: ", stops it
  for good.
- `stream_resumable` promises that each event ships exactly once. It takes the
  id of every event, turn_start's too, so a drop right after a turn_start loses
  that row: `SdkDelivery.SdkDeliversExactlyOnceIff`,
  `SdkDelivery.SdkCanLoseARow`.
- `provision_session` says the handle is destroyed on any failure. An exception
  that is not a ProvisionError, BackendError or SpriteError calls no destroy,
  and one of those does not either if the stage's failed row cannot be written;
  the worker then clears the row's handle as if nothing were left, so no later
  terminate or delete enqueues one: `Provisioning.OneFault`,
  `Provisioning.UntypedFaultLeavesTheSandbox`,
  `Provisioning.RefusedRowLeavesTheSandbox`,
  `Cleanup.FailedSandboxIsDestroyedIff`.
- The API concepts page says a PUT identical to the current state does not bump
  the version. An agent's stored model is normalized again on every PUT, and a
  model that still starts with a known provider and a slash changes, or is
  refused: `Agents.IdenticalPutIsNoOpIff`.
- The guard in `_abort_if_terminated` is there so that a concurrent terminate
  is not overwritten. It narrows the window and does not close it:
  `Races.TerminationLostIffStale`. A user's quota can then be exceeded without
  a single prompt: `SingleSaves.StaleStartCanExceedTheLimit`.
- The streaming page says every event but start and turn_start has an id line.
  A terminal event of an empty log has id 0 and none: `Frames.WriteFrame`. It
  also still names a `mcp_config` stage where the code emits `install_runtime`
  and `runtime_config`.

## Model

| member | source | states |
|---|---|---|
| `Protocol.FinalStatus` | src/agent_on_demand/session_service/turn/outcome.py:13-38 | A command result becomes completed exactly for exit code 0, else failed; an exit records its code, whatever it is, and no other result has one. |
| `TurnAllocation.TurnsAreAllocatedOnce` | src/agent_on_demand/views/sessions/lifecycle.py:82-109 | Under any interleaving of requests and single worker accesses, every save a step of its own: turns are numbered 1..n, each is handed to at most one execute_turn, no two live tasks drive one turn, and the mode is "run" exactly for turn 1. |
| `TurnAllocation.HandlesAreDestroyedOnce` | src/agent_on_demand/signals.py:9-20 | No backend handle is enqueued for destruction twice, system-wide, over any run. |
| `TurnAllocation.DestroyedIffReleased` | src/agent_on_demand/views/sessions/lifecycle.py:151-170 | Exactly one destroy of a session's handle if a terminate or delete committed while the row still held it, otherwise none. |
| `TurnAllocation.StepKeeps` | src/agent_on_demand/session_service/tasks.py:96-159 | Every single step of every session, crash included, keeps numbering, hand-out and destroy accounting. |
| `JointInvariant.StartIsAtomic` | src/agent_on_demand/session_service/turn_executor.py:116-142 | The guard and the two saves before a turn, run without interruption, are one closed-form transition: abort when terminated, else running/running. |
| `JointInvariant.FinishIsAtomic` | src/agent_on_demand/session_service/turn_executor.py:177-198 | The guard and the two saves after a turn are one closed-form transition; a terminated session keeps its status. |
| `JointInvariant.FailIsAtomic` | src/agent_on_demand/session_service/tasks.py:162-215 | Failing a task is one closed-form transition: the turn fails, the session fails unless terminated, a provision failure clears the handle. |
| `JointInvariant.JointInvariantHolds` | src/agent_on_demand/session_service/turn_executor.py:116-198 | In every reachable state: pending or running means exactly one live task and it drives the last turn (crash-free); completed or failed means none; every turn but the last completed with 0; a completed session and its last turn both carry 0, a failed one and its last turn the same other code or none. |
| `JointInvariant.StatusHistory` | src/agent_on_demand/session_state.py:18-56 | Over whole runs the observed status moves only pending to running or failed, running to completed or failed, completed to pending, anything to terminated, and into or out of existence. |
| `JointInvariant.EndStatesLast` | src/agent_on_demand/session_state.py:28-44 | Terminated stays terminated until deletion; failed changes only to terminated or deleted. |
| `JointInvariant.CreateRespectsQuota` | src/agent_on_demand/views/sessions/create.py:98-132 | A committed create leaves the user's active sessions within the limit it was checked against. |
| `JointInvariant.QuotaOverRuns` | src/agent_on_demand/models/quota.py:7-30 | With a fixed limit, active sessions never exceed the limit plus the number of accepted prompts, from the empty state over any run of uninterrupted groups. |
| `JointInvariant.PromptFreeRunsStayWithinQuota` | src/agent_on_demand/views/sessions/create.py:98-132 | Without prompts such runs never exceed the limit. |
| `JointInvariant.GroupMovesStatus` | src/agent_on_demand/session_service/turn_executor.py:116-142 | One guarded group moves one session only along the allowed edges. |
| `Requests.TerminateIsSeen` | src/agent_on_demand/views/sessions/lifecycle.py:151-170 | Whatever live status a terminate meets, the session is terminated right after it and names no handle. |
| `Requests.DeleteIsSeen` | src/agent_on_demand/views/sessions/lifecycle.py:188-203 | A delete removes every session that is neither pending nor running, and changes nothing otherwise. |
| `Requests.PromptIsSeen` | src/agent_on_demand/views/sessions/lifecycle.py:82-109 | A prompt makes a completed session pending with one more turn, and changes nothing otherwise. |
| `Requests.CreateIsSeen` | src/agent_on_demand/views/sessions/create.py:98-162 | Within the limit a create is seen as a pending session of its user that holds its handle; without room nothing changes. |
| `Requests.NoTurnAfterTerminate` | src/agent_on_demand/views/sessions/lifecycle.py:151-170 | Over runs of groups: after a terminate the session is seen as terminated or deleted, and no later prompt gives it a turn. |
| `Requests.DormantIsNeverProvisioned` | src/agent_on_demand/session_service/tasks.py:104-113 | Over any single steps: a session terminated before a worker picked up its provision task is never provisioned and no turn of it handed out. |
| `Requests.TerminatedEarlyIsDormant` | src/agent_on_demand/views/sessions/lifecycle.py:151-170 | A create followed by a terminate before any worker comes leads there. |
| `SingleSaves.ExactlyOnePromptCommits` | src/agent_on_demand/views/sessions/lifecycle.py:82-109 | Every refresh and save a step of its own: any number of prompts race for a completed session that any run has led to, with anything else interleaved; until the session is ended or a turn of it is saved as finished, exactly one commits if any came. |
| `SingleSaves.RunKeepsDriver` | src/agent_on_demand/views/sessions/lifecycle.py:82-109 | In every run of single steps at most one task of a session may still save its status, and none once it is completed or failed. |
| `SingleSaves.QuotaOverSingleSteps` | src/agent_on_demand/views/sessions/create.py:98-132 | Over any run of single steps from the empty state, active sessions never exceed the limit plus the accepted prompts plus the stale starts over a termination. |
| `SingleSaves.StaleStartCanExceedTheLimit` | src/agent_on_demand/session_service/turn_executor.py:122-142 | A run without prompts in which a stale start leaves a user whose limit is 1 with two active sessions. |
| `Races.TerminationLostIffStale` | src/agent_on_demand/session_service/turn_executor.py:122-142 | With single saves, a worker access un-terminates a session if and only if it is a save that acts on a status read before the terminate. |
| `Races.TerminateCanBeOverwritten` | src/agent_on_demand/session_service/turn_executor.py:116-142 | A reachable run of single accesses in which a committed terminate is overwritten and the session shows running again. |
| `Races.GroupsKeepTermination` | src/agent_on_demand/session_service/turn_executor.py:177-193 | The same accesses run as a group never lose a termination. |
| `SessionService.Tables.CreateSession` | src/agent_on_demand/views/sessions/create.py:98-162 | The locked quota check and inserts are the Create step; 429 exactly when the active count has reached the limit, and then nothing changes; else a pending session with its handle, turn 1 and one queued provision task. |
| `SessionService.Tables.SendPrompt` | src/agent_on_demand/views/sessions/lifecycle.py:82-109 | The locked section is the Prompt step; accepted exactly on a completed session, which is then pending without an exit code, with one more turn, numbered behind all others, and its task queued. |
| `SessionService.Tables.TerminateSession` | src/agent_on_demand/views/sessions/lifecycle.py:151-170 | The locked section and the enqueue are the Terminate step; refused exactly when already terminated; else the row says terminated and names no handle, and the handle it named is enqueued once. |
| `SessionService.Tables.DeleteSession` | src/agent_on_demand/views/sessions/lifecycle.py:188-203 | Signal and delete are the Delete step; refused exactly while pending or running; else the row is gone and the handle it named is enqueued once. |
| `SessionService.Tables.FailTaskRows` | src/agent_on_demand/session_service/tasks.py:162-215 | The failure routines are the FailTask group: the turn fails, the session too unless it was terminated, and a failed provisioning leaves it no handle. |
| `SessionService.Tables.PickUp` | src/agent_on_demand/session_service/tasks.py:104-113 | A worker takes a task up unless the session is gone, or is terminated and the task provisions it; then the task ends and the row stays as it was. |
| `SessionService.Tables.HandOut` | src/agent_on_demand/session_service/tasks.py:152-159 | After a good provisioning execute_turn is queued for the same turn in the same mode. |
| `SessionService.TurnExecutor.Begin` | src/agent_on_demand/session_service/turn_executor.py:116-142 | _abort_if_terminated and _mark_running are the StartTurn group; runs on, with session and turn running, exactly when the row is there and not terminated; a terminated session stays as it is and its turn fails. |
| `SessionService.TurnExecutor.RunTurn` | src/agent_on_demand/session_service/turn_executor.py:76-114 | A turn that nothing interrupts: it runs exactly when the session is there and not terminated, and then session and turn end with the exit code if there was an exit and with none otherwise, completed exactly for code 0; otherwise it is the aborted start. |
| `SessionService.TurnExecutor.Finalize` | src/agent_on_demand/session_service/turn_executor.py:177-198 | _finalize is the FinishTurn group for the recorded result: the turn gets its status and exit code, and so does the session unless it was terminated. |
| `LogSink.LogConservation` | src/agent_on_demand/session_service/log_sink.py:66-162 | Over all interleavings of writers, command thread, drain and failing inserts: persisted ++ buffer ++ queue is the sequence of accepted chunks decoded one by one, accepted plus drops is writes, the queue and buffer bounds hold. |
| `LogSink.ReturnedMeansAllPersisted` | src/agent_on_demand/session_service/log_sink.py:110-137 | When drain has returned, the log holds exactly the chunks accepted before the sentinel, once and in order, and the buffer is empty. |
| `LogSink.QuietMeansPersisted` | src/agent_on_demand/session_service/log_sink.py:119-122 | After any run, a timeout on an empty queue and one good insert put everything accepted in the log. |
| `LogSink.RaisedKeepsAPrefix` | src/agent_on_demand/session_service/log_sink.py:139-162 | Whatever failed, what is persisted followed by the buffer is a prefix of what was accepted. |
| `LogSink.InsertsAreAllOrNothing` | src/agent_on_demand/session_service/log_sink.py:142-162 | A step leaves the log alone or adds the whole buffer; only the third failed try of a batch raises. |
| `LogSink.WhenItFlushes` | src/agent_on_demand/session_service/log_sink.py:116-137 | The drain flushes at the twentieth chunk, at a timeout with something buffered and at the sentinel, and not otherwise; it is over only behind the sentinel. |
| `LogSink.WhenItDrops` | src/agent_on_demand/session_service/log_sink.py:66-74 | A write is taken while fewer than 4096 chunks wait, and else counted as one drop. |
| `LogSink.DropsPerStream` | src/agent_on_demand/session_service/log_sink.py:66-74 | Stream by stream: accepted plus dropped is written, over every interleaving. |
| `LogSink.FinishedWithTheCommandsResult` | src/agent_on_demand/session_service/turn_executor.py:144-159 | When drain has returned, the recorded result is the command's own, no later step changes it, and the turn completes exactly for exit code 0. |
| `LogSink.TraceRuns` | src/agent_on_demand/session_service/log_sink.py:116-137 | One turn of the drain loop after another is a run of the interleaved machine. |
| `LogSink.LogChunkSink.Put` | src/agent_on_demand/session_service/log_sink.py:66-74 | A write is accepted while the queue has room and counted as dropped otherwise; it always reports its length. |
| `LogSink.LogChunkSink.FlushBuffer` | src/agent_on_demand/session_service/log_sink.py:139-162 | Nothing for an empty buffer; else up to three all-or-nothing tries. |
| `LogSink.LogChunkSink.TryInsert` | src/agent_on_demand/session_service/log_sink.py:142-162 | One try inserts the whole buffer or nothing; the third to fail raises. |
| `LogSink.LogChunkSink.DrainOnce` | src/agent_on_demand/session_service/log_sink.py:116-136 | One iteration: timeout flush, sentinel, or take a chunk and flush at 20. |
| `LogSink.LogChunkSink.Drain` | src/agent_on_demand/session_service/log_sink.py:110-137 | Against any schedule of arrivals and insert failures the loop is a run of the interleaved machine, left with drain returned at the sentinel, raised at a third failure, or waiting for the next chunk when the schedule is used up. |
| `StreamFormat.RowEvent` | src/agent_on_demand/stream_format.py:40-63 | A row becomes one stage or output event carrying the row's id. |
| `StreamFormat.FormatChunkEvents` | src/agent_on_demand/stream_format.py:25-65 | Exactly the events and the new last turn of the reference translation. |
| `StreamFormat.TerminalEvent` | src/agent_on_demand/stream_format.py:68-85 | None exactly for pending and running; exit, with the session's own code, exactly for completed or failed with a code; error exactly for failed without one; terminated exactly for terminated. |
| `Wire.WireRoundTrip` | src/agent_on_demand/stream_format.py:16-22 | Every event is read back from its object by the documented field names alone, so nothing it holds is lost or renamed. |
| `Wire.RowOnTheWire` | src/agent_on_demand/stream_format.py:40-63 | A stage row's object has its stage, state, duration if any, and text if it failed with one; an output row's has its stream, data and turn. |
| `Wire.TurnStartOnTheWire` | src/agent_on_demand/stream_format.py:49-53 | A turn_start has the id and the turn of the row it stands before. |
| `Wire.EndOnTheWire` | src/agent_on_demand/stream_format.py:68-85 | A client reads the exit code the session has, error without one, or terminated. |
| `StreamFormat.OneEventPerRow` | src/agent_on_demand/stream_format.py:25-65 | Erasing turn_start from any sequence of formatted rows leaves one event per row, in row order. |
| `StreamFormat.TurnStartsExactlyAtChanges` | src/agent_on_demand/stream_format.py:49-53 | In a fresh stream a row is one event, behind a turn_start with its id and turn exactly when it is an output row whose turn differs from the latest output turn before it. |
| `LogTail.QueryIsContiguous` | src/agent_on_demand/stream.py:29-44 | A query of at most 100 rows returns exactly the rows between the cursor and its last id, none skipped. |
| `LogTail.SendChunk` | src/agent_on_demand/stream.py:49-53 | Sending a batch yields its formatted events and moves the cursor to its last id and the turn to its last turn. |
| `LogTail.RunPoll` | src/agent_on_demand/stream.py:28-71 | One iteration of the loop yields and updates exactly what the reference poll does. |
| `LogTail.StreamSessionFromDb` | src/agent_on_demand/stream.py:15-71 | The generator over any series of polls is the reference tail. |
| `TailProperties.TailFaithful` | src/agent_on_demand/stream.py:28-71 | However the polls fall and wherever the output is cut, the row events sent are those of the rows between the start and the cursor, each once, in order. |
| `TailProperties.BatchingIsInvisible` | src/agent_on_demand/stream.py:28-53 | Batched polling refines one pass over the log: rows and turn_starts sent are a prefix of formatting all rows above the cursor at once. |
| `TailProperties.TerminalComesAfterEveryRow` | src/agent_on_demand/stream.py:55-60 | A stream that ends has exactly one terminal event, in the last place, with the cursor as its id; every row the last row query could see came before it. |
| `TailProperties.FinishedSessionEndsInTime` | src/agent_on_demand/stream.py:28-60 | A finished session with n rows left ends after exactly ceil(n/100) + 1 polls: all rows as if formatted in one pass, then one event that tells how it ended: exit with its code, error if it failed without one, or terminated. |
| `KeepAlive.HeartbeatsAndStaleness` | src/agent_on_demand/stream.py:55-71 | Of every poll of an open stream, told from what was sent before: it ends the stream when the session is gone, is finished with nothing left, or has had no row for more than 600 seconds, then with one stale event; otherwise it sends one heartbeat exactly when the last is 15 seconds old. |
| `Decimal.ParseIntOfDec` | src/agent_on_demand/views/sessions/stream.py:27-29 | Reading back a printed log id gives the id. |
| `Decimal.ParseIntOfSpaced` | src/agent_on_demand/views/sessions/stream.py:27-31 | A cursor may have spaces around it. |
| `Decimal.ParseIntOfSigned` | src/agent_on_demand/views/sessions/stream.py:27-31 | A cursor may have a sign. |
| `Decimal.StripDropsSpace` | src/agent_on_demand/providers.py:33-52 | Stripping drops the spaces at both ends, all of them and nothing else. |
| `Frames.SinceOf` | src/agent_on_demand/views/sessions/stream.py:27-31 | The Last-Event-ID header wins over since unless empty; negatives are 0; an error exactly when the chosen text is not an integer. |
| `Frames.WriteFrame` | src/agent_on_demand/views/sessions/stream.py:47-59 | An event's frame: an id line exactly for events with a non-zero id other than turn_start, then its data line; a comment for a heartbeat. |
| `Frames.WriteStart` | src/agent_on_demand/views/sessions/stream.py:41-45 | The start frame has a data line and no id line. |
| `Frames.EventGenerator` | src/agent_on_demand/views/sessions/stream.py:33-59 | The whole response text is the start frame and one frame per item. |
| `FrameReading.FrameRead` | src/agent_on_demand/views/sessions/stream.py:47-59 | A reader after WHATWG HTML section 9.2.6, whatever its id buffer holds, dispatches a frame's data once, at its end, and takes the id then and not before. |
| `FrameReading.CutStreamRead` | src/agent_on_demand/views/sessions/stream.py:33-59 | Cut after any number of characters, the reader has dispatched exactly the frames that are whole, and its id is the buffer's as those frames left it. |
| `Delivery.ConnectKeepsUpToDate` | src/agent_on_demand/views/sessions/stream.py:27-59 | One more connection, cut anywhere: the client holds exactly the rows up to its cursor again, unless it had resumed and got a frame but none with an id while its buffer started empty; then it holds more rows than its cursor covers. |
| `Delivery.ExactlyOnceIff` | src/agent_on_demand/views/sessions/stream.py:27-59 | For every log, every series of connections cut at any character and every poll schedule, and for the standard's reader as for a seeded one: the rows received are exactly the rows from the first cursor to the last, each once, in id order, if and only if no connection that resumed past the first cursor got a frame through but none with an id; otherwise more rows came than there are. |
| `Delivery.ExactlyOnceDelivery` | src/agent_on_demand/views/sessions/stream.py:27-59 | A reader that starts its id buffer from its last event id is never in that case: exactly once, in id order, under any cuts. |
| `Delivery.NothingMissingAtTheEnd` | src/agent_on_demand/stream.py:55-60 | After one uncut connection that ends with a terminal event, no row the last query could see is missing, and none is held twice; for either reader. |
| `Redelivery.EmptyBufferDoublesARow` | src/agent_on_demand/views/sessions/stream.py:41-45 | The start frame has no id. A run of three connections, the second cut right behind that frame, in which the standard's reader is sent the only row twice. |
| `LineClient.ReadResponse` | site/docs/api/streaming.md:205-215 | The documented hand-written client over one response's lines: an id line moves the id at once, a data line gives its event, an event of a closing type returns, a number or JSON that does not parse raises. |
| `LineClient.FollowSession` | site/docs/api/streaming.md:199-217 | The whole client is the reference run: it asks again with the id it holds after every response that ends cleanly, and only then. |
| `LineClient.CutFrameFolded` | site/docs/api/streaming.md:205-215 | A frame cut after any number of characters: nothing of it is taken, or its event, or its id, or the number the digits that came name; or the client raises, at an id line without digits or at part of an event's JSON. |
| `LineClient.ResponseRead` | site/docs/api/streaming.md:204-215 | A response that stops after any number of characters gives the items whose data line has come, a clean end making up for its newline, and leaves the next frame's part to act on the client; broken off, the client raises. |
| `LineClient.RequestResumesAt` | src/agent_on_demand/views/sessions/stream.py:27-31 | The header that client sends makes the server resume behind exactly the id it holds. |
| `LineDelivery.ResponseAddsRows` | site/docs/api/streaming.md:199-217 | One response adds to the rows held exactly those between the id asked with and the last row given. |
| `LineDelivery.WhereItStands` | site/docs/api/streaming.md:199-217 | After a response the client stands among the rows given, or behind a row it was not given (a clean end from the last digit of the id to the data), or before a row it was given (a clean end inside digits that name a smaller number). |
| `LineDelivery.ExactIff` | site/docs/api/streaming.md:199-217 | Over any responses, stopping anywhere, cleanly or not: the client that has not raised holds all along exactly the rows up to its id, each once, in order, if and only if no response ends at one of those two places. |
| `LineLosses.MissesNothingIff` | site/docs/api/streaming.md:199-217 | All along no row up to the id is missing if and only if no response ends cleanly between the last digit of the id and the data of a row not given before. |
| `LineLosses.ComesOnceIff` | site/docs/api/streaming.md:199-217 | All along the rows come in order, none twice, if and only if the client never asks below a row it holds and is given one. |
| `LineLosses.OnlyDigitsLeadBack` | site/docs/api/streaming.md:199-217 | ... which never happens if no response ends cleanly inside digits that name a number below a row given. |
| `LineRuns.EarlyIdSkipsARow` | site/docs/api/streaming.md:199-217 | A run of two responses, the first ended behind the digits of "id: 12", after which row 12 has not been given and will not be. |
| `LineRuns.PartOfAnIdDoublesARow` | site/docs/api/streaming.md:199-217 | A run of two responses, the first ended behind "id: 1" of "id: 12", in which row 2 is given twice. |
| `EndToEnd.StdoutReachesTheReader` | src/agent_on_demand/session_service/log_sink.py:110-137 | From the queue to the reader, in a log that also holds stage rows and other turns: when a turn's drain has returned and a reader has come past that turn's rows over any connections that lose no cursor, the stdout it holds of that turn is the decoded stdout chunks accepted before the command ended, all, once, in order. |
| `TsClient.DrainBuffer` | clients/typescript/src/stream.ts:78-85 | The inner loop yields the events of all terminated lines and keeps the rest. |
| `TsClient.ReadRawLine` | clients/typescript/src/stream.ts:80-84 | A line without its carriage return is parsed; anything but a data line holding one JSON object yields nothing. |
| `TsClient.IterateSSE` | clients/typescript/src/stream.ts:72-92 | For every cutting of the text into chunks the events are those of the whole text split on newlines, with the unterminated tail. |
| `TsClient.DataLineRead` | clients/typescript/src/stream.ts:105-119 | A server data line parses to that event's type, id and payload. |
| `TsClient.PayloadKept` | clients/typescript/src/types.ts:143-150 | Any object becomes an event of its text type, or output, with its number id if it has one, and everything else kept as it is. |
| `TsClient.DataLinesAreRead` | clients/typescript/src/stream.ts:105-119 | A data line is read whatever white space stands before its object. |
| `TsClient.OtherLinesAreSkipped` | clients/typescript/src/stream.ts:105-119 | A line that does not start with data:, and one whose text is no JSON object, yields nothing. |
| `TsClient.EveryLineIsRead` | clients/typescript/src/stream.ts:72-92 | Lines ended by a newline with or without a carriage return, and a last one that is not ended, are all read, each once and in order. |
| `TsClient.CutStreamLines` | clients/typescript/src/stream.ts:72-86 | Cut anywhere, the lines seen parse to the events whose data line was complete. |
| `TsClient.ReadingUndoesFraming` | clients/typescript/src/stream.ts:72-119 | On the server's frames with heartbeats between, in any chunks, the events are exactly the server's, start first. |
| `StreamHandle.CleanupRunsExactlyOnce` | clients/typescript/src/stream.ts:20-39 | Over any use, calls made while a next() is pending included, abort and the caller's cleanup run exactly once when the handle is closed or a begun loop is over in any way, and not at all otherwise. |
| `StreamHandle.Handle.CloseHandle` | clients/typescript/src/stream.ts:32-39 | close() cleans up at once unless that was done, also while a next() is pending, and sends the generator a return, which waits behind what is pending. |
| `StreamHandle.CloseWhilePending` | clients/typescript/src/stream.ts:20-39 | Closed while a next() is pending: cleaned up at once, and when that next settles in any way the generator is finished, nothing is queued and nothing ran twice. |
| `StreamHandle.Handle.CloseOnce` | clients/typescript/src/stream.ts:21-26 | Abort and cleanup the first time, nothing after. |
| `StreamHandle.Handle.SettleBody` | clients/typescript/src/stream.ts:51-102 | The resumed body yields and the next request is taken up, or it ends or throws: the finally block then closes once and the pending requests are answered. |
| `StreamHandle.Handle.TakeUpNext` | clients/typescript/src/stream.ts:33-39 | A return taken up by a begun loop runs its finally block; a generator that never began has none to run. |
| `SdkResume.StreamAhead` | clients/python/src/aod/resources/sessions.py:189-191 | Wherever a connection is cut, the SDK's cursor is the rows' cursor, or one row past it exactly when the last event was a turn_start. |
| `SdkResume.EventsSeenAreParsed` | clients/python/src/aod/resources/sessions.py:188-192 | The events of an attempt are what a line reader makes of the characters that arrived. |
| `SdkResume.StreamResumable` | clients/python/src/aod/resources/sessions.py:183-207 | The retry loop computes the reference run: events, cursor, waits, connections and outcome, for every server. |
| `SdkResume.Consume` | clients/python/src/aod/resources/sessions.py:189-195 | The loop over a response moves the cursor to the last id seen, and any event resets failures and backoff. |
| `SdkResume.AttemptOnce` | clients/python/src/aod/resources/sessions.py:187-207 | One turn of the retry loop: return, raise, or wait and go on. |
| `SdkResume.RetryBudget` | clients/python/src/aod/resources/sessions.py:183-207 | A run that delivers N events opens at most (N + 1) * max_retries + 1 connections. |
| `SdkResume.WaitOfStreak` | clients/python/src/aod/resources/sessions.py:203-207 | The k-th wait of a streak of failures is min(initial * multiplier^(k-1), max_backoff), with k at most max_retries. |
| `SdkResume.RaisesPastMaxRetries` | clients/python/src/aod/resources/sessions.py:203-205 | The loop raises exactly at the (max_retries + 1)-th failure in a row. |
| `SdkResume.HowItEnds` | clients/python/src/aod/resources/sessions.py:187-207 | Only a drop leads to another connection: a response that is not dropped ends the run, and an error that is no drop is raised at once. |
| `SdkDelivery.SdkDeliversAtMostOnce` | clients/python/src/aod/resources/sessions.py:183-207 | Under any drops each row is delivered at most once, in order; the rows missing below the cursor are exactly those whose turn_start was the last event before a drop, at most one per drop. |
| `SdkDelivery.SdkCanLoseARow` | clients/python/src/aod/resources/sessions.py:183-207 | A run in which the first attempt is cut behind the turn_start's data line and the second is not cut: the log's one row is never given to the caller. |
| `SdkDelivery.SdkDeliversExactlyOnceIff` | clients/python/src/aod/resources/sessions.py:171-181 | The documented exactly-once delivery holds if and only if no drop falls right after a turn_start. |
| `Formatter.GenericFormatter.Feed` | clients/python/src/aod/pretty/__init__.py:63-69 | A chunk adds exactly the display lines it completes. |
| `Formatter.TakeLines` | clients/python/src/aod/pretty/__init__.py:65-69 | The loop shows every complete line and keeps the rest. |
| `Formatter.GenericFormatter.Flush` | clients/python/src/aod/pretty/__init__.py:71-77 | What was shown plus the flush is the display of the whole text. |
| `Formatter.GenericFormatter.Consume` | clients/python/src/aod/pretty/__init__.py:53-61 | Only string data of stdout output events is fed. |
| `Formatter.ShowStream` | clients/python/src/aod/pretty/__init__.py:53-77 | Consuming all events and flushing shows the display of the concatenated stdout, however it was cut. |
| `Formatter.ShownTextIsStdout` | clients/python/src/aod/pretty/__init__.py:53-61 | On the server's events that text is the data of the stdout rows, whatever the turn_starts. |
| `Formatter.WrittenLinesAreShown` | clients/python/src/aod/pretty/__init__.py:63-69 | Terminated lines are shown as they are, without the carriage returns that end them, however many; empty ones are not shown. |
| `Formatter.TailIsShownIff` | clients/python/src/aod/pretty/__init__.py:71-77 | An unterminated last line is shown unless it is all spaces, without its carriage returns. |
| `Trace.OneOpenSpanPerTool` | src/agent_on_demand/session_service/runtime_trace.py:118-136 | At every moment each tool id has at most one open span, and the table holds exactly the spans started and not ended. |
| `Trace.EverySpanEndsOnce` | src/agent_on_demand/session_service/runtime_trace.py:88-136 | After finish every span ever started has been ended exactly once, as matched or abandoned, nothing else was ended, and no end came without its start. |
| `Trace.BracketedEndsOnce` | src/agent_on_demand/session_service/runtime_trace.py:118-136 | Effects in which every start opens a closed tool id and every end ends the span open under its id end each span once unless it is still open. |
| `Trace.TableIsTheHistory` | src/agent_on_demand/session_service/runtime_trace.py:118-136 | The open-span table is a faster form of reading the history: for every run of actions the tracer is told what a definition without any table tells it. |
| `Trace.FinishAbandons` | src/agent_on_demand/session_service/runtime_trace.py:88-97 | Finish ends what is open, oldest first, each once and as abandoned. |
| `TraceLines.UselessLinesChangeNothing` | src/agent_on_demand/session_service/runtime_trace.py:99-116 | A blank line, one that is no JSON or no object, and one the adapter raises on may stand anywhere: the trace is the same without it. |
| `TraceLines.UsefulLinesAreTraced` | src/agent_on_demand/session_service/runtime_trace.py:99-116 | On lines that are objects the adapter reads, the trace is that of all their actions, line after line. |
| `Trace.RuntimeTraceEmitter.ApplyOne` | src/agent_on_demand/session_service/runtime_trace.py:118-136 | An action changes table and tracer as the reference says: duplicates and unknown ends ignored. |
| `Trace.RuntimeTraceEmitter.HandleLine` | src/agent_on_demand/session_service/runtime_trace.py:99-116 | Blank lines, bad JSON, non-objects and raising adapters do nothing; else all the line's actions are applied. |
| `Trace.RuntimeTraceEmitter.HandleLines` | src/agent_on_demand/session_service/runtime_trace.py:80-86 | The loop handles every complete line in the buffer, in order, and leaves the rest. |
| `Trace.RuntimeTraceEmitter.Feed` | src/agent_on_demand/session_service/runtime_trace.py:76-86 | The emitter has dealt with exactly the complete lines of the stdout fed so far; other streams are ignored. |
| `Trace.RuntimeTraceEmitter.Finish` | src/agent_on_demand/session_service/runtime_trace.py:88-97 | Afterwards the tracer has the one-shot trace of the whole stdout. |
| `Trace.TraceTurn` | src/agent_on_demand/session_service/runtime_trace.py:76-97 | A turn's trace depends on the concatenated stdout bytes alone. |
| `Shell.QuoteReads` | src/agent_on_demand/session_service/provisioning/env_file.py:40-58 | Wherever a word may go on, a POSIX reader takes shlex.quote of a value as exactly that value's characters. |
| `Shell.JoinQuotedRoundTrip` | src/agent_on_demand/session_service/provisioning/package_commands.py:61-62 | Lexing a quoted, space-joined list gives exactly the list, one word each, for every list, empty strings and quotes included. |
| `EnvFile.BuildEnvFileBody` | src/agent_on_demand/session_service/provisioning/env_file.py:20-58 | The body is the printed layers in order: credentials, static, session id, model, sorted variables, sorted secrets. |
| `EnvFile.AppendLines` | src/agent_on_demand/session_service/provisioning/env_file.py:41-44 | A loop over items appends one quoted assignment line each. |
| `EnvFile.BuildEnvSourceShim` | src/agent_on_demand/session_service/turn/argv.py:66-76 | The shim is set -a, source, the sorted turn variables, set +a, exec. |
| `EnvFile.BuildTurnArgv` | src/agent_on_demand/session_service/turn/argv.py:20-63 | The argv around the shim, or the error for any mode but run and continue. |
| `EnvFile.FileRuns` | src/agent_on_demand/session_service/provisioning/env_file.py:40-58 | Sourcing the printed body makes exactly its assignments, in order. |
| `EnvFile.ShimRoundTrip` | src/agent_on_demand/session_service/turn/argv.py:66-76 | A shell that runs the shim over the printed file becomes the runtime command in the environment overlaid by credentials, static, session id, model, variables, secrets and turn variables, each later layer overriding, every value intact. |
| `EnvFile.TextsForgetInsertionOrder` | src/agent_on_demand/session_service/provisioning/env_file.py:54-57 | Both texts depend on what the dictionaries hold, not on their insertion order. |
| `Dicts.SortingForgetsInsertionOrder` | src/agent_on_demand/session_service/provisioning/env_file.py:54-57 | Sorting the items of equal dictionaries gives the same list. |
| `Dicts.LessIsCodePointOrder` | src/agent_on_demand/session_service/provisioning/env_file.py:54-57 | Sorting is by code points: a proper beginning comes first, else the smaller character where two keys first differ. |
| `Packages.PackageCommandsRead` | src/agent_on_demand/session_service/provisioning/package_commands.py:32-58 | For every manager and every package list the printed lines are read as the install commands with one word per package; exactly the six known managers are accepted. |
| `ProvisionScript.BuildProvisionScript` | src/agent_on_demand/session_service/provisioning/script.py:53-108 | The script is the sections in order, each followed by an empty line, then the user's script. |
| `ProvisionScript.BuildPackageLines` | src/agent_on_demand/session_service/provisioning/script.py:78-85 | The nested loops append every known manager's lines, in the canonical order, skipping empty lists. |
| `ProvisionScript.BuildCloneLines` | src/agent_on_demand/session_service/provisioning/script.py:94-98 | One clone line per repository, in order. |
| `ProvisionScript.ScriptReads` | src/agent_on_demand/session_service/provisioning/script.py:53-108 | Without a user script a shell reads exactly the intended commands: set -e, mkdir, chmod, installs, git config, clones, one word per directory, package, URL and mount path. |
| `ProvisionScript.UserScriptComesLast` | src/agent_on_demand/session_service/provisioning/script.py:101-108 | With one, the shell starts on the user's text between two commands after exactly the intended ones, so no value before it can change its meaning. |
| `ScriptLaws.StagesInOrder` | src/agent_on_demand/session_service/provisioning/script.py:53-108 | Read back from the printed script: only commands of the six stages, in their order: set -e, directories, file modes, packages, credential helper, clones. |
| `ScriptLaws.CredentialsIff` | src/agent_on_demand/session_service/provisioning/script.py:70-75 | The credential helper is configured and the credentials file made private exactly when some repository has a non-empty token; the env file is made private always. |
| `ScriptLaws.ReposAreCloned` | src/agent_on_demand/session_service/provisioning/script.py:87-98 | Every repository is cloned once, in order, to its own path, and nothing else is. |
| `ScriptLaws.DirectoriesAreMade` | src/agent_on_demand/session_service/provisioning/script.py:58-68 | One sorted mkdir -p makes exactly the directories written to later: the runtime's own, codex's always and the others' with MCP servers, and one for every inline skill. |
| `ScriptLaws.PackagesAreInstalled` | src/agent_on_demand/session_service/provisioning/script.py:77-85 | Every package asked for is installed once by its manager's own command, apt's first and the managers in order, and nothing else is. |
| `ScriptLaws.UsersTextIsLast` | src/agent_on_demand/session_service/provisioning/script.py:101-108 | A user script that is more than spaces is the last line, stripped. |
| `ScriptLaws.NothingElseIsRead` | src/agent_on_demand/session_service/provisioning/script.py:101-108 | Without one, the whole script reads as those commands. |
| `Provisioning.Provisioner.RunStage` | src/agent_on_demand/session_service/provisioning/events.py:50-73 | A stage writes started, then done or failed, around its body; nothing when it skips or raises before its timer; a row the database refuses is an error that takes the place of the body's; backend errors are tagged as that stage wraps them. |
| `Provisioning.Provisioner.RunBlock` | src/agent_on_demand/session_service/provisioning/orchestrator.py:89-96 | The stages run in order up to the first failure. |
| `Provisioning.Provisioner.CleanUp` | src/agent_on_demand/session_service/provisioning/orchestrator.py:97-104 | Typed failures destroy the handle once; a BackendError of that call is swallowed. |
| `Provisioning.Provisioner.ProvisionSession` | src/agent_on_demand/session_service/provisioning/orchestrator.py:53-106 | Rows, creation, destroy calls and the raised error are those of the reference run. |
| `Provisioning.ProvisioningTrace` | src/agent_on_demand/session_service/provisioning/orchestrator.py:76-106 | Whatever each stage does and whichever rows are refused: the rows are started/done pairs of later and later stages, with at most one started/failed pair or lone started, last; the one exactly when a body raised first, the other exactly when a second row was refused first; success means every stage with something to do is done. |
| `Provisioning.FirstFailure` | src/agent_on_demand/session_service/provisioning/orchestrator.py:89-96 | Running the stages fails exactly when some stage does, and with the error of the first that does. |
| `Provisioning.DestroyCalls` | src/agent_on_demand/session_service/provisioning/orchestrator.py:89-104 | One destroy call exactly when, with the handle there, the first stage to fail let out a ProvisionError, BackendError or SpriteError; none for a failed creation, a success or any other error. |
| `Provisioning.RaisedErrorIs` | src/agent_on_demand/session_service/provisioning/orchestrator.py:97-104 | What is raised for the first setup stage that fails: tagged with that stage for a backend error in its timer, and for a Sprite error in the two stages that run the runtime's code; tagged unknown for any other of the two; otherwise unchanged; an error of the destroy call takes over unless it is a backend error. |
| `Provisioning.CreationErrorIs` | src/agent_on_demand/session_service/provisioning/orchestrator.py:72-87 | Without credentials nothing is tried; a backend error of the creation is tagged with it; nothing is destroyed. |
| `Provisioning.OneFault` | src/agent_on_demand/session_service/provisioning/orchestrator.py:89-104 | Whichever setup stage has a fault, and whatever it is, its sandbox is given a destroy call if and only if what the stage lets out is typed. |
| `Provisioning.RefusedRowLeavesTheSandbox` | src/agent_on_demand/session_service/provisioning/events.py:50-73 | A typed error whose failed row the database refuses: the refusal takes its place, and no destroy is called. |
| `Provisioning.UntypedFaultLeavesTheSandbox` | src/agent_on_demand/session_service/provisioning/orchestrator.py:89-104 | A fault of another kind in the body of a stage, of the backend's SDK or of the database: the sandbox was created and the provisioning destroys nothing. |
| `Cleanup.FailedSandboxIsDestroyedIff` | src/agent_on_demand/session_service/provisioning/orchestrator.py:56-57 | Every access a step of its own, whatever comes before and after: once the worker saves a session as failed whose provisioning failed, a destroy of its handle has been or will be enqueued if and only if a terminate or delete committed before that save. The provisioning itself made its one destroy call exactly for a typed error, which is DestroyCalls again, because its world is not part of the run. |
| `Cleanup.NoHandleIsNeverReleased` | src/agent_on_demand/views/sessions/lifecycle.py:151-170 | A session whose row names no handle is never released again, whatever follows: its handle stays gone. |
| `Versioned.UpdatesLinearize` | src/agent_on_demand/versioning.py:18-25 | Any interleaving of clients is one line of updates: snapshots are exactly versions 1..n, the last is the current row, each was made by the one accepted request that named the version before it, and the row is the fold of the accepted patches. |
| `Versioned.StepKeepsHistory` | src/agent_on_demand/views/agents.py:315-332 | The version grows by one exactly when the fields change, only for a PUT that named the current version of an unarchived row; earlier snapshots stay. |
| `Versioned.TakesEffect` | src/agent_on_demand/views/agents.py:260-332 | A PUT that names the current version of an unarchived row and is not refused takes effect in full; any other changes no field and no version; an archival archives and does nothing else. |
| `Versioned.FieldIsLastGiven` | src/agent_on_demand/views/agents.py:276-303 | After any requests a field is what the last PUT let through that gave it gave, else what it was first. |
| `FieldHistory.AgentEnvironmentHistory` | src/agent_on_demand/views/agents.py:276-287 | So for the agent's environment: left alone when absent, cleared by null, else set. |
| `FieldHistory.RequestGivesEnvironment` | src/agent_on_demand/views/agents.py:276-287 | What a patch says of the environment is what the request's field says: nothing if it is left out, else its value, null included. |
| `FieldHistory.AgentTextHistory` | src/agent_on_demand/views/agents.py:288-303 | So for its name, system prompt and description. |
| `FieldHistory.AgentListHistory` | src/agent_on_demand/views/agents.py:288-303 | So for its skills and MCP servers. |
| `FieldHistory.EnvironmentFieldHistory` | src/agent_on_demand/views/environments.py:209-231 | So for an environment's name, packages, variables and setup script. |
| `FieldHistory.EnvironmentNetworkingHistory` | src/agent_on_demand/views/environments.py:209-231 | So for its networking, with the type told apart, unrestricted if none is named. |
| `Versioned.NoLostUpdate` | src/agent_on_demand/versioning.py:18-25 | Two accepted requests never named the same version. |
| `Versioned.ArchivedIsFinal` | src/agent_on_demand/views/agents.py:260-261 | An archived resource never changes again. |
| `Metadata.Merged` | src/agent_on_demand/validation/metadata_merge.py:18-33 | Non-empty values overwrite, empty strings delete, absent keys pass through. |
| `Metadata.MergeMetadata` | src/agent_on_demand/validation/metadata_merge.py:34-40 | The loop computes that merge in whatever order the patch yields its keys. |
| `Metadata.MergesCompose` | src/agent_on_demand/validation/metadata_merge.py:18-33 | Two patches in a row are one merge of their right-biased union, deletions included. |
| `Metadata.MergesAreOneMerge` | src/agent_on_demand/validation/metadata_merge.py:18-33 | Any number of patches is one merge of their union. |
| `Metadata.MergeIsIdempotent` | src/agent_on_demand/validation/metadata_merge.py:18-33 | Applying a patch twice is applying it once; it changes nothing exactly when the row agrees with it. |
| `Agents.Agent.Put` | src/agent_on_demand/views/agents.py:232-332 | A PUT is refused for the first reason that applies, changing nothing, or is the versioned step of its patch; then each field is what the request gives or what it was, the environment none when given as null, provider and model normalized, the version one higher exactly if something changed. |
| `Agents.Agent.Save` | src/agent_on_demand/views/agents.py:276-332 | The compare-and-set of every field, the metadata merge, the version bump and the snapshot. |
| `Agents.Agent.SetFields` | src/agent_on_demand/views/agents.py:276-303 | Each field is set when given and left alone otherwise, the environment cleared by a null; changed exactly when some field differs afterwards. |
| `Agents.Agent.SetMetadata` | src/agent_on_demand/views/agents.py:305-313 | The metadata becomes the merge; changed exactly when it differs. |
| `Agents.Agent.SnapshotVersion` | src/agent_on_demand/views/agents.py:136-150 | Called after the one bump of the version, it restores the history: snapshots are versions 1..n once each and the last is the current row. |
| `Agents.AgentMetadataHistory` | src/agent_on_demand/views/agents.py:305-313 | Over any run the metadata is the first one merged with the union of all accepted patches. |
| `Agents.NormalizedIsNormal` | src/agent_on_demand/providers.py:33-52 | An accepted pair has a supported provider and a stripped, non-empty model. |
| `Agents.NormalizeSays` | src/agent_on_demand/providers.py:33-52 | Outer spaces go; a model whose part before the first slash is a known provider loses it if it is the agent's own and is refused if it is another's; any other model stays; unknown provider and empty model are refused. |
| `Agents.StoredAgentsAreNormal` | src/agent_on_demand/views/agents.py:267-274 | Every stored agent stays that way. |
| `Agents.NormalizesToItselfIff` | src/agent_on_demand/providers.py:33-52 | Normalizing a stored pair gives it back if and only if the stored model has no known provider prefix. |
| `Agents.IdenticalPutIsNoOpIff` | src/agent_on_demand/views/agents.py:267-332 | The documented no-op, a PUT identical to the current state leaves the version alone, holds if and only if the stored model has no known provider prefix. |
| `Agents.RepeatedPutIsNoOpIff` | src/agent_on_demand/views/agents.py:267-332 | Sending the same PUT again changes nothing if and only if it names a model or the model it left has no known provider prefix. |
| `Agents.ForeignPrefixRefusesAllUpdates` | src/agent_on_demand/views/agents.py:267-274 | An agent whose stored model has another provider's prefix refuses every PUT that brings no new model or provider. |
| `Agents.EmptyPutCanChangeTheModel` | src/agent_on_demand/providers.py:43-51 | Such a model can be stored, and the next empty PUT changes it and makes version 2. |
| `Environments.Environment.Put` | src/agent_on_demand/views/environments.py:190-252 | A PUT is refused for the first reason that applies, a taken name rolling back the whole save, or is the versioned step of its patch; then each field is what the request gives or what it was. |
| `Environments.Assign` | src/agent_on_demand/views/environments.py:209-231 | Each field is what the request gives or what it was, networking split into its type, unrestricted by default, and the rest; changed exactly when some field differs. |
| `Environments.IdenticalPutIsNoOp` | src/agent_on_demand/views/environments.py:209-231 | An identical PUT is never refused for its name and leaves row and version alone. |
| `Environments.RepeatedPutIsNoOp` | src/agent_on_demand/views/environments.py:209-231 | Sending the same PUT again changes nothing. |
| `Environments.NamesStayUnique` | src/agent_on_demand/views/environments.py:142-159 | Under any interleaving of creations, updates and archivals no two active environments of a user share a name. |
| `Environments.CreatedUnlessTaken` | src/agent_on_demand/views/environments.py:142-159 | A create is refused exactly for a name an environment of the user that is not archived has; archiving frees the name. |
| `Environments.ChangedUnlessTaken` | src/agent_on_demand/views/environments.py:233-246 | A PUT that would change something is refused, as a whole, exactly for such a name; else it takes effect and makes the next version. |

## Left out

- Authentication, HTTP parsing, analytics, tracing exports, the ORM and the queue library: only their effects on rows and tasks are kept.
- Retries of the queue, of `execute_turn` or of a crashed task: a crash is a step that loses the task.
- The moment between a committed terminate and the enqueue of its destroy: a crash there is not modelled.
- Orphaned sandboxes: a destroy may run before the sandbox exists, so nothing is claimed about the backend's own state.
- Rows committed between a poll's row query and its status read: they can miss the terminal event, and the model lets them.
- `StreamFormat.ToJson`: a JSON object is a map, so the order of keys in a frame is not modelled.
- `Frames.SinceOf`: `int()` on non-ASCII digits and its limit of 4300 digits are not modelled.
- `Sse`: a byte order mark at the start of a stream and the `retry` field's effect are not modelled, because the server sends neither.
- `TsClient.IterateSSE`: the branch for responses with status 400 and above, which yields no events, is left out; the text decoder is a parameter that has already run.
- `SdkResume.StreamResumable`: the Python reader's own line splitting is taken to be the TypeScript one on the server's frames, which are ASCII; the asynchronous twin is the same loop and is not repeated.
- `LogSink.LogChunkSink.Drain`: writers act between iterations here; that they may also act between the tries of a flush is in the step machine, whose theorems cover it.
- `Trace`: the Claude adapter is any function from objects to actions, so its own branches are not modelled.
- `Trace.RuntimeTraceEmitter.HandleLine`: exceptions of `json.loads` other than the two that are caught, such as one for too deep nesting, are not modelled.
- `Shell`: expansions other than `"$@"`, redirections, pipes, patterns and compound commands put the reader in a state about which nothing is claimed.
- `ShellRun`: variables that bash itself makes read-only or computes, such as `UID` and `RANDOM`, are treated as ordinary ones.
- `EnvFile.BuildEnvFileBody`: resolving credentials and the runtime's static settings is the caller's; they are arbitrary lists here.
- `ProvisionScript.BuildProvisionScript`: that a script runs to its end is not claimed, because a failing command stops it and `run_provision_setup` ignores the exit code.
- `Provisioning`: exceptions that are not `Exception`s, such as a shutdown, are not modelled; stage durations and messages are left out of the rows.
- `Agents.Agent.SetMetadata` and `Agents.Agent.Put`: Python's equality of `1`, `1.0` and `True` inside JSON values is not modelled.
- `Agents`: an environment archived between the unlocked check and the row lock is what that check said it was, as in the code; deletion of environments and the duplicate views of the user interface are left out.
- `Environments.Environment.Put`: the names of the other active environments are those the database sees at the save.
- Field validators, network policy, runtime argv builders, MCP config renderers, skill install commands and the display text of the Claude formatter: each is settled by reading one branch or one loop.
- `Provisioning.Provisioner.EmitStageEvent`: at most the one write is refused that ends its stage, always with an error of none of the three kinds; a run without a session id writes no stage rows; here every run has one.
- `Agents.Agent.Put` and `Environments.Environment.Put`: the 404 of a row that does not exist, and the 422 of a body that does not validate, come before anything here.
- `Versioned.Step`: the timestamps of rows and snapshots, and the environment rewrites that deleting an environment causes.
- `EnvFile.ShimRoundTrip`: a runtime's command is taken to have at least one word, as every runtime's has; without one, `exec` would return to the shim.
- `LineClient`: responses with status 400 and above, whose bodies give no lines the client reads; and the other line ends of `splitlines`, which the server's ASCII frames do not contain.
- `SdkResume.EventsSeen`: an attempt that is not dropped carries whole frames. A body that a proxy ends cleanly in the middle, perhaps right behind a turn_start, is a normal return for `stream_resumable`, and is not modelled.
- `StreamHandle`: a `throw()` on the generator, which no consumer in the client uses.
