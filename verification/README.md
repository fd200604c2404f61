# Lauretta Stocks: a verified model of the desk's hard core

This project models, in Dafny, the parts of the desk where mistakes would be hardest to see: the
protocol by which API and workers run a job, the text transformers between the model and the
client, and the tables that give a stateless client its thread and the assistant its soul. Every
main result holds for all inputs, all interleavings or all runs. `dafny verify dfyconfig.toml`
checks the whole project.

## What is modelled

**Jobs.** `JobProtocol` is the life of one stream entry: deliveries, reclaims, the broker calls of
every task that handles it, lost replies and deaths between any two calls. `JobSafety` proves what
every run keeps. `JobHandler` is the handler's own code over a broker object, and each of its
broker calls is shown to be a step of the protocol. `RunOnce` and `AckSafety` say exactly which
reclaims can run a job twice or ack one that is left running. `EventReader` runs a reader beside the
workers as a state machine, and `EventFollow` is the reader's loop. `Submission` interleaves any
number of clients call by call over watched keys, and `SubmissionSafety` proves what they keep;
`ReleaseSafety` says exactly which steps make a release take another job's record, with `TwoReleases`
as the example, and `BehindSafety` exactly which steps make `behind` miss a live job. `SubmitClient`
is the client's own loop among the others, whose effect on it is in `Interference`, and `SubmitAlone`
the run of a request alone. `ThreadLock` is the timed lock, in real time, and `LockWait` the wait for it.

**Text.** `Redact` is the reasoning filter as an object with its buffer; `RedactProofs`,
`RedactSecrets` and `RedactTags` prove what leaves it. Python's character classes are parameters, so
the results hold for any of them. `ChatRelay` turns graph parts into events and is compared with a
client that replays them; `RelayGuard` shows that all reasoning it logs has passed the filter. `Chunks`
maps events to OpenAI deltas and `AnswerStream` frames and records an answer; `TurnAnswer` follows a
turn from the graph to the answer.
`History` and `Compaction` cut the transcript. `Speech` splits a text to be read aloud.

**Identity.** `Digests` is the string that is hashed and its inverse, `Threads` the two tables and
the requests that use them, `ThreadSafety` their interleavings. `Persona` is the facts table with
the soul's and the keyed facts' transactions, `PersonaSafety` every run of them.

## What the proofs found

- **Release is not one step.** `release` reads the record and then deletes it. Two clients attached to
  one answered job can both read it; between their deletes the request can be queued again, and the
  second delete takes the new record, so a further retry queues a second live job
  (`TwoReleases.TwoLiveJobsForOneRequest`). Exactly three kinds of steps can bring this about: while a
  release stands between its read and its delete, the record expires, another release deletes it, or
  a submission replaces it (`ReleaseSafety.TakenExactly`).
- **`behind` looks at one job.** `submit_once` asks only for the job the thread's pointer names. A turn
  sent while another runs is queued behind it; if it then fails, as it does when the lock stays taken,
  the next turn is told that nothing is ahead of it although the first still runs
  (`BehindSafety.NotBehindBesideALiveJob`). This happens exactly when the pointed job ends before an
  older one on the thread, or the pointer expires before a job (`BehindSafety.MisledExactly`).
- **Giving up overwrites success.** A worker that dies between marking a job done and acking it can
  leave one delivery too many; `dead` then marks the job failed although `done` is the first outcome
  on its log (`JobSafety.GivingUpOverwritesDone`). It is the only way a finished status changes
  (`JobSafety.StatusMovesForward`).
- **Running at most once rests on `keep_claimed` until RUNNING is marked, and no longer.** A queued
  entry reclaimed from a live worker that has not yet marked it running can run twice
  (`RunOnce.SecondStartExactly`), or be acked while its status is left running
  (`AckSafety.UnaccountedExactly`); no other reclaim can. The handler's docstring names only the case of
  a second outcome, in which readers see the first, as it says (`EventReader.ReadsExactly`).
- **A ninth of the TTL for each delay and each call is not enough.** Two bodies never overlap if and only
  if six wake-up delays and nine calls together stay below the TTL (`ThreadLock.ExcludesExactly`,
  `EachBelowANinthIsNotEnough`).
- **A fork without a recorded pair falls back.** Two conversations that open alike and both get a fixed
  note record nothing; the later one, which was forked, is then given the thread of the earlier
  (`ThreadSafety.ForkFallsBack`, and `HomeExactly` for when this happens).
- **A fixed note can outrank a conversation's own pair.** `remember_answer` leaves the fixed notes out,
  but `resolve` registers every pair a request resends. Once one conversation has resent the note it
  got to a question, another that got it to the same question is given that thread while the note is
  the oldest recorded pair of its window (`ThreadSafety.SlidWindowJoinsAnother`,
  `OldestRecordedWins`).
- **Pieces are not always "in order"**, as the docstring of `pieces` says: an over-long sentence that
  comes after one that leaves something pending is read first. `Speech.Pieces` has the exact condition
  and `Speech.OvertakenText` a text.
- **A proposal exactly seven days old** no longer counts against the cap but can still be decided
  (`Persona.DecidableIsWaiting`).

## Assumptions

Stated as hypotheses where they are used: an entry a live task handles is never reclaimed (for the
number of runs and for what an ack means the exact condition is proved instead, and for readers it
is not needed); hashes do not collide; pairs of different conversations differ; a fork's random
token is new; sleeping never ends early; `]` is not a word character and `<` is not whitespace; the
statements about secrets are for text without think tags or whose think tags each lie within one
fragment, those about text passing unchanged for text without `<` but for think tags, those about
prompt tags for text without think tags, and those about what is not changed for text in which no
secret is spelt, as a word or inside one; a resent window holds at least one recorded pair. No
record expires and no stream is trimmed, except in `Submission`, where records, thread pointers and
statuses may expire at any time.

## Model

| member | source | states |
|---|---|---|
| Redact.Matches | services/agent/src/worker/redact.py:49-54 | at every position the first alternative, longest secret first, that stands there as a whole word in any case, with the end of the text allowed only once nothing more can come |
| Redact.LongestWins | services/agent/src/worker/redact.py:49-50 | of all secrets that stand at a position the longest is replaced |
| Redact.LongestFirst | services/agent/src/worker/redact.py:49 | exactly the secrets with text in them, longest first |
| Redact.ReasoningFilter.constructor | services/agent/src/worker/redact.py:48-56 | every secret with text in it is guarded and the buffer starts empty |
| Redact.ReasoningFilter.Feed | services/agent/src/worker/redact.py:58-72 | one more piece of the run of fragments fed since the last flush is cut and guarded, and the rest is held |
| Redact.ReasoningFilter.Flush | services/agent/src/worker/redact.py:74-77 | the rest is sent as the last piece and the run begins anew |
| RedactProofs.CutFalls | services/agent/src/worker/redact.py:61-70 | nothing is sent exactly when the buffer fits the hold, or holds no whitespace before its tail and is at most four holds long; what is sent ends at the last whitespace before the tail, else at the last `<` of the hold before the tail, else at the tail |
| RedactProofs.NothingLost | services/agent/src/worker/redact.py:58-77 | whatever secrets are guarded, text that spells none and has no `<`: sent plus held is what was fed after every feed, and all of it is sent after the flush |
| RedactProofs.BufferBounded | services/agent/src/worker/redact.py:31-35 | on text that spells no secret and has no think tag the buffer never exceeds four holds, or one hold and the longest fragment |
| RedactProofs.BareBufferBounded | services/agent/src/worker/redact.py:31-35 | a filter that guards nothing keeps that bound on any text |
| RedactProofs.EveryTagDropped | services/agent/src/worker/redact.py:31-35 | every prompt-block tag of such text fed between flushes lies wholly inside one piece, under either cut, and that piece is dropped |
| RedactProofs.QuoteIsDropped | services/agent/src/worker/redact.py:26-31 | a piece that quotes one of the twelve prompt tags, open or closed, is dropped |
| RedactSecrets.NoSecretWhileStreaming | services/agent/src/worker/redact.py:58-72 | however text without think tags is cut into fragments, every whole-word secret in it whose next character has arrived has lost a character to a replacement in the pieces and what is held; what is sent is those pieces, each whole or not at all |
| RedactSecrets.NoSecretSent | services/agent/src/worker/redact.py:74-81 | after the flush every whole-word secret of such a text, in any case, has lost a character to a replacement in the pieces of which what was sent is a choice |
| RedactTags.WholeTagsVanish | services/agent/src/worker/redact.py:79-81 | when no think tag is split between fragments, the filter does with a text what it does with the text without its tags |
| RedactTags.NoSecretBesideTags | services/agent/src/worker/redact.py:79-81 | there every whole-word secret of what is said has lost a character to a replacement in what was sent |
| RedactTags.TagsTakenOut | services/agent/src/worker/redact.py:58-81 | of a text that says no secret exactly the think tags are taken out, however it is cut into fragments, through a tag too |
| JobHandler.Broker.Mark | services/agent/src/queue/submit.py:51-55 | the status write is one step of the protocol by this task: done and known, done with its reply lost, or not done |
| JobHandler.Broker.Publish | services/agent/src/queue/events.py:23-31 | so is the append of an event |
| JobHandler.Broker.LastTerminal | services/agent/src/queue/events.py:34-39 | the newest entry if it is an outcome, else nothing |
| JobHandler.Handler.Run | services/agent/src/worker/handler.py:57-83 | the run so far goes on by steps of this task alone; a finished job is left as it is, only a queued one runs, and then its events and its outcome are on the log and its status says so; it ends ready to ack, or with the task gone |
| JobHandler.Handler.Redelivered | services/agent/src/worker/handler.py:94-103 | no run starts; a log that ends in an outcome stays and the status becomes that outcome's, else the interruption is told and marked |
| JobHandler.Handler.Finish | services/agent/src/worker/handler.py:90-92 | the outcome is appended and then marked; whatever fails, it is never marked without being on the log |
| JobHandler.Handler.DeadLetter | services/agent/src/queue/reclaim.py:73-82 | one entry more on the dead list before it is acked, and nothing else changes |
| JobHandler.Handler.Handle | services/agent/src/queue/consumer.py:121-135 | one delivery, whatever call fails, continues the run it found by steps of its own task; when nothing fails the entry is acked, with its job run, brought up to date, given up or parked as its status, count and payload say |
| JobSafety.InvStep | services/agent/src/worker/handler.py:57-110 | what every step of any task, delivery, reclaim, death or lost reply keeps |
| RunOnce.StartsAtMostOnce | services/agent/src/worker/handler.py:64-74 | over all interleavings of workers, deaths, failed calls and reclaims, of live entries too, the job's run starts at most once as long as no reclaim is untimely |
| RunOnce.SecondStartExactly | services/agent/src/queue/reclaim.py:49-66 | a reclaim can lead to a second start if and only if it is untimely: the entry is valid, queued and within its deliveries, and a live task has not yet marked it running |
| JobSafety.RunsAtMostOnce | services/agent/src/worker/handler.py:64-74 | while no live task's entry is reclaimed the job's run starts at most once |
| JobSafety.AckedIsAccountedFor | services/agent/src/queue/consumer.py:121-135 | an acked entry has a finished status and its outcome on the log, or, with an invalid payload, is on the dead list; a finished status always has its outcome on the log |
| AckSafety.AckedIsAccountedFor | services/agent/src/queue/consumer.py:121-135 | reclaims of live entries included, as long as none is untimely an acked entry is finished with its outcome on the log, or on the dead list |
| AckSafety.UnaccountedExactly | services/agent/src/queue/reclaim.py:49-66 | a reclaim can lead to an acked entry that is neither if and only if it is untimely |
| JobSafety.StatusIsTold | services/agent/src/worker/handler.py:90-110 | in every run, any reclaims included, a job marked done has `done` on its log and one marked failed an error |
| JobSafety.OneOutcomeUntilAbandoned | services/agent/src/worker/handler.py:85-110 | until a delivery exceeds the maximum the outcome is unique and last, and a finished job is marked done exactly when it is `done`, failed exactly when it is an error |
| JobSafety.StatusMovesForward | services/agent/src/worker/handler.py:85-110 | queued, running, finished, never back; giving up marks it failed, and a finished status changes if and only if a job that was done is given up |
| JobSafety.LogOnlyGrows | services/agent/src/queue/events.py:23-31 | nothing leaves the log, so the first outcome stays first |
| JobSafety.TaskCompletes | services/agent/src/queue/consumer.py:121-135 | a task alone on its entry, with no failing call, brings it to its ack |
| JobSafety.NeverStuck | services/agent/src/queue/reclaim.py:49-66 | whatever happened before, an entry left without a task is brought to its ack by one more delivery |
| JobSafety.ReclaimedAliveRunsTwice | services/agent/src/worker/handler.py:13-17 | without that promise an entry reclaimed from a live worker can start a second run |
| JobSafety.GivingUpOverwritesDone | services/agent/src/worker/handler.py:85-92 | a run in which a job marked done ends failed while its log starts with `done` |
| EventReader.ReadsExactly | services/api/src/queue/events.py:44-77 | beside any workers, those of reclaimed entries included, a reader resumed after any entry holds exactly the later entries, in order, up to the first outcome, and without a deadline ends with nothing only if it resumed after one |
| EventReader.ReaderEnds | services/api/src/queue/events.py:80-85 | once the job is finished the reader ends without a deadline |
| EventFollow.Follower.YieldTo | services/api/src/queue/events.py:73-77 | exactly the batch is yielded entry by entry, to its end or through its first outcome |
| EventFollow.Follower.Read | services/api/src/queue/events.py:51-77 | the loop, with the workers at work before each of its calls, is a run of the reader's machine; at the deadline it has asked as often as the clock allowed |
| EventFollow.Follow | services/api/src/queue/events.py:44-77 | started on a job, a run of reader and workers leads to the log at the end, and what was yielded are its later entries once and in order, through the first outcome or, past it or at the deadline, none |
| SubmissionSafety.InvStep | services/api/src/queue/submit.py:46-87 | what every broker call of every client, every worker step and every expiry keeps |
| ReleaseSafety.WhatVacates | services/api/src/queue/submit.py:83-87 | in every run, a step takes a record from under a release that has read it if and only if it is its expiry, another release's delete, or a transaction with nothing written since its watch; the last only once the answered job has failed or expired |
| ReleaseSafety.ReleaseTakesOnlyItsOwn | services/api/src/queue/submit.py:83-87 | in every run without such a step no release takes another job's record |
| ReleaseSafety.TakenExactly | services/api/src/queue/submit.py:83-87 | after any such run a step can be continued, with nothing failing or expiring, to a release that takes another job's record if and only if it is such a step |
| ReleaseSafety.QueuedOnceWhileSteady | services/api/src/queue/submit.py:56-80 | in every run without such a step, of two jobs queued under one request key the earlier had failed, expired or been released |
| ReleaseSafety.QueuedOnceInCalm | services/api/src/api/openai/routes.py:109-112 | so it is when nothing expires, no finished job is given up and no two clients are about to delete the same record |
| SubmissionSafety.RecordIsNewest | services/api/src/queue/submit.py:70-74 | a record still standing names the job queued last under its key |
| SubmissionSafety.PointerIsNewest | services/api/src/queue/submit.py:72 | a thread's pointer, while it stands, names the job queued last on the thread |
| BehindSafety.NotBehindExactly | services/api/src/queue/submit.py:68-77 | when a turn is queued as not behind the pointed job is not live, and the thread has no live job if and only if none but the last queued on it lives; nothing is known once the pointer has expired |
| BehindSafety.NotBehindIsIdle | services/api/src/queue/submit.py:42-43 | in every run in which no pointer expires before a job of its thread ends and none it names ends before another of the thread, a turn queued as not behind has no live job on its thread |
| BehindSafety.MisledExactly | services/api/src/queue/submit.py:68-77 | after any such run a step can be continued, with nothing failing or expiring, to a turn queued as not behind beside a live job if and only if it is such an expiry or end |
| BehindSafety.NotBehindBesideALiveJob | services/api/src/queue/submit.py:42-43 | a run in which a turn is queued as not behind while the first job of its thread still runs |
| SubmitAlone.QueueAlone | services/api/src/queue/submit.py:46-77 | a request nobody interferes with is queued if no record stands under its key or the recorded job has failed or is gone |
| TwoReleases.TwoLiveJobsForOneRequest | services/api/src/api/openai/routes.py:109-112 | a run in which nothing fails, expires or is given up, and two overlapping releases of one answer leave one request with two live jobs |
| SubmitClient.Connection.Attachable | services/api/src/queue/submit.py:46-53 | a job is found if and only if the record named it when it was read, and it had a status, not failed, when that was read |
| SubmitClient.Connection.Behind | services/api/src/queue/submit.py:68-69 | whether the job the pointer named when it was read was still queued or running when its status was read |
| SubmitClient.Connection.Execute | services/api/src/queue/submit.py:70-80 | commits if and only if no watched key was written since, in one step of the run: record, pointer, status and queue then all name the new job; else nothing changes |
| SubmitClient.Connection.SubmitOnce | services/api/src/queue/submit.py:56-80 | ends whenever the others' work does; attached means the record named that job at some moment of the call, and the job has a status and has not failed; otherwise its last step queued the request's own job, and it says it waits if the pointed job was live then |
| SubmitClient.Connection.Send | services/api/src/api/openai/routes.py:93-100 | the same from the request's arrival, `attachable` first |
| SubmitClient.Connection.Release | services/api/src/queue/submit.py:83-87 | with nobody between its two calls it removes the answered job's record and no other |
| ThreadLock.BodiesNeverOverlap | services/agent/src/queue/lock.py:71-110 | while no two refreshes in a row fail and six wake-up delays and nine calls stay below the TTL, the key never lapses under a body and no two bodies run at once |
| ThreadLock.StrangersChangeNothing | services/agent/src/queue/lock.py:26-37 | refresh and release with a token that does not hold the key change nothing |
| ThreadLock.FreeKeyIsTaken | services/agent/src/queue/lock.py:49-50 | a key nobody holds is taken for the TTL, else nothing happens |
| ThreadLock.HolderDecides | services/agent/src/queue/lock.py:26-37 | the holder's refresh prolongs the key by the TTL and its release frees it |
| ThreadLock.LaterTimingOverlaps | services/agent/src/queue/lock.py:98-106 | with any other timing a late acquire, at most one failed and one late refresh let two bodies run |
| ThreadLock.ExcludesExactly | services/agent/src/queue/lock.py:71-110 | no run has two bodies at once if and only if six wake-up delays and nine calls stay below the TTL |
| ThreadLock.EachBelowANinthIsNotEnough | services/agent/src/queue/lock.py:98-106 | for any TTL a timing in which each delay and each call stays below a ninth of it, and a run with two bodies |
| LockWait.AcquireWithin | services/agent/src/queue/lock.py:52-62 | the time passed is that of the tries and the doubling sleeps between them; it gives up only at a reply after the full wait, each earlier one finding the key taken before it, overruns the wait by no more than its last sleep and call, and ends |
| LockWait.SleepsDouble | services/agent/src/queue/lock.py:56-62 | the sleeps are 50, 100, 200, 400 and 800 ms and then a second each |
| ChatRelay.Relayer.SendHeld | services/agent/src/worker/stream.py:60-63 | the reasoning held back is published, and nothing when there is none |
| ChatRelay.Relayer.Message | services/agent/src/worker/stream.py:81-94 | reasoning first, through the filter; before a token the held reasoning is flushed |
| ChatRelay.Relayer.ApplyUpdate | services/agent/src/worker/stream.py:98-112 | an agent update closes a streamed message that calls tools, records the reply and starts the tools; a tools update reports each |
| ChatRelay.Relayer.FeedOne | services/agent/src/worker/stream.py:49-79 | what each kind of part does, nested or not |
| ChatRelay.RetryClears | services/agent/src/worker/stream.py:72-79 | after a retry a replaying client holds nothing of the abandoned attempt |
| ChatRelay.RetryTells | services/agent/src/worker/stream.py:72-79 | a reset is sent exactly when the client holds something of the attempt; an attempt that only thought ends in a retrying line |
| ChatRelay.UpdatePublishes | services/agent/src/worker/stream.py:96-106 | at the agent's update: the held reasoning, a message end exactly when shown text goes on to call tools, and each tool's start in order |
| ChatRelay.CallShowsItsText | services/agent/src/worker/stream.py:96-106 | after any number of failed attempts, at the agent's update the client holds exactly the message's text, and starts empty if it calls tools |
| ChatRelay.TurnShowsTheReply | services/agent/src/worker/stream.py:46-106 | over a whole turn of model calls the client ends holding exactly the reply the job reports |
| ChatRelay.ReasoningHasText | services/agent/src/worker/stream.py:60-94 | whatever the graph streams, no reasoning event of the log is empty |
| ChatRelay.ChunkIsTold | services/agent/src/worker/stream.py:77-89 | a token comes after its chunk's reasoning and all that was held; what is not the assistant's own sends nothing |
| ChatRelay.PartIsTold | services/agent/src/worker/stream.py:62-69 | a progress line, from a nested graph too, and a notice of the turn itself come right after the held reasoning; the notice is kept for the result |
| ChatRelay.ResultsAreReported | services/agent/src/worker/stream.py:102-106 | each tool result is reported in order, failed or done |
| RelayGuard.ReasoningIsFiltered | services/agent/src/worker/stream.py:57-94 | whatever the graph streams, the reasoning in the log is, at every moment and with the last flush, exactly what the filter sends of the assistant's own reasoning between two flushes |
| RelayGuard.NoSecretLogged | services/agent/src/worker/stream.py:57-94 | in each such stretch, free of think tags, every whole-word secret has lost a character to a replacement in the pieces of which the log holds a choice |
| RelayGuard.NoneWithoutGuard | services/agent/src/worker/stream.py:40 | with reasoning off none is logged |
| Chunks.ContentSentExactly | services/api/src/api/openai/chunks.py:34-38 | content has gone out exactly when a token, a message end or a notice has come; until then the answer is empty and nothing has finished it |
| Chunks.ContentIsTold | services/api/src/api/openai/chunks.py:70-99 | the content is the events' own text: tokens, a paragraph break at a message's end, the retry note once anything was shown, each notice set off |
| Chunks.ThoughtsAreMused | services/api/src/api/openai/chunks.py:54-82 | the reasoning is each reasoning event as it came and each desk line on a line of its own |
| Chunks.QuietIsKeptAlive | services/api/src/api/openai/stream.py:75-78 | a quiet interval is sent as an empty piece of reasoning |
| Chunks.NotesStandAlone | services/api/src/api/openai/chunks.py:85-98 | a retry before any content leaves no trace; every notice, error and timeout note is a paragraph of its own |
| Chunks.MidThoughtTells | services/api/src/api/openai/chunks.py:74-76 | while the flag is down the reasoning so far stands at a line start; with no empty reasoning events exactly then |
| Chunks.BreaksAreNeeded | services/api/src/api/openai/chunks.py:54-56 | with no empty reasoning events a break is sent only where the reasoning lacks one |
| Chunks.NeedlessBreakExactly | services/api/src/api/openai/chunks.py:54-56 | in any log, a break is sent where none was needed if and only if the last reasoning or desk line was an empty reasoning event at a line start |
| AnswerStream.TakeIn | services/api/src/api/openai/stream.py:75-86 | one arrival: kept alive, or mapped, added to what was sent, recorded if it closes the turn, and only then yielded |
| AnswerStream.Parts | services/api/src/api/openai/stream.py:65-93 | the whole run of the generator for any log and any end of the read |
| AnswerStream.AnswerIsTold | services/api/src/api/openai/stream.py:65-93 | content, reasoning and failure of all parts, and the recorded text, are what the arrivals tell; it is recorded as done exactly when `done` closes it |
| AnswerStream.StoppedAndRecordedOnce | services/api/src/api/openai/stream.py:65-93 | exactly one finish reason, on the last part; the recording starts exactly once, right before it, with exactly the concatenated content, as done exactly for `done` |
| AnswerStream.Stream | services/api/src/api/openai/stream.py:96-102 | the role, every part and `[DONE]`, each once and in order; the one finish reason comes right before `[DONE]` |
| AnswerStream.EveryDeskLineStandsAlone | services/api/src/api/openai/chunks.py:54-56 | every progress and tool line of an answer, behind another turn or not, starts a new line of its concatenated reasoning and ends it |
| AnswerStream.DeskBreaksAreNeeded | services/api/src/api/openai/chunks.py:74-76 | for whatever a chat turn logs, a break is sent exactly where the reasoning lacks one |
| AnswerStream.Wait | services/api/src/api/openai/stream.py:105-128 | the error that closes the turn, or that its records are gone; else what the arrivals tell, the content stripped |
| TurnAnswer.AnswerIsReply | services/agent/src/worker/stream.py:109-135 | for the log of a turn of one model call that neither failed nor called tools, without notices, the answer is exactly the reply, the text of the assistant's own chunks |
| TurnAnswer.AnswerEndsWithReply | services/agent/src/worker/stream.py:109-135 | after failed attempts and tool calls the answer still ends with the reply |
| AnswerStream.ResentAnswerIsKnown | services/api/src/api/openai/digests.py:42-48 | what a client that wraps its reasoning stores of a stream names the same alias as what was recorded |
| Digests.DecodeEncode | services/api/src/api/openai/digests.py:23-26 | a parser undoes the length-prefixed encoding |
| Digests.EncodeInjective | services/api/src/api/openai/digests.py:23-26 | no two part lists are hashed as the same string |
| Digests.StoredAnswerIsTheAnswer | services/api/src/api/openai/digests.py:42-44 | stripping stored reasoning undoes a client's wrapping, for content without `<` and reasoning without `</think>` |
| Digests.AnswerTextIsTheContent | services/api/src/api/openai/digests.py:42-44 | the text of an alias is the content but the blanks at its ends |
| Digests.UnclosedStays | services/api/src/api/openai/digests.py:20 | text in which no reasoning block closes is left as it is |
| Digests.AliasesAreExact | services/api/src/api/openai/digests.py:47-48 | two aliases agree exactly when user, prompt and answer text do |
| Digests.AliasesAreOnlyAliases | services/api/src/api/openai/digests.py:29-48 | no alias equals a request key's, a first message's or a header's digest |
| Threads.ThreadStore.CreateThread | services/api/src/db/queries/threads.py:9-18 | inserts, and says whether the thread was new |
| Threads.ThreadStore.RegisterAliases | services/api/src/db/queries/threads.py:35-48 | adds each alias that is not there and rebinds none |
| Threads.ThreadStore.FirstKnown | services/api/src/api/openai/threads.py:49-50 | the thread of the oldest resent pair that is known |
| Threads.ThreadStore.ResolveThread | services/api/src/api/openai/threads.py:33-53 | header, new conversation, fork or follow, and both tables afterwards |
| Threads.ThreadStore.RememberAnswer | services/api/src/api/openai/threads.py:56-64 | registers the pair unless the answer is empty or a fixed note |
| Threads.RemembersExactly | services/api/src/api/openai/threads.py:56-64 | the pair is bound unless its text is empty, a fixed note, or already bound, and nothing else is |
| Threads.HeaderDecides | services/api/src/api/openai/threads.py:33-37 | a header names the thread whatever the tables hold, and no alias is added |
| Threads.ThreadNamesAreApart | services/api/src/api/openai/digests.py:34-39 | different users, headers, models or first messages name different threads, and no header one that a first message names |
| ThreadSafety.InvStep | services/api/src/api/openai/threads.py:33-64 | what every statement of every request keeps: a conversation's bound aliases point to its thread |
| ThreadSafety.ConversationsKeepTheirThread | services/api/src/api/openai/threads.py:33-53 | however requests interleave, two answers of resolve are the same thread exactly when they are for the same conversation |
| ThreadSafety.AliasesAreNeverRebound | services/api/src/db/queries/threads.py:38-46 | a bound alias keeps its thread forever |
| ThreadSafety.HomeExactly | services/api/src/api/openai/threads.py:46-53 | in every reachable state a request with history is given its conversation's thread if and only if some pair of its window is recorded or its first words lead to that thread |
| ThreadSafety.ForkFallsBack | services/api/src/api/openai/threads.py:38-51 | two conversations that open alike and both get a fixed note: nothing is recorded and the later one is given the earlier one's thread |
| ThreadSafety.OldestRecordedWins | services/api/src/api/openai/threads.py:46-51 | whatever the tables hold, the oldest recorded pair of the window decides, and with none the first message |
| ThreadSafety.SharedNoteOutranksOwnPair | services/api/src/api/openai/threads.py:46-53 | in any tables, a fixed note registered by one conversation's window takes another that got it to the same question to the first one's thread, in spite of the other's own recorded pair |
| ThreadSafety.SlidWindowJoinsAnother | services/api/src/api/openai/threads.py:33-64 | from empty tables, the turns of two conversations with words and answers of their own after which the second, its window slid to a note both got, is given the first one's thread |
| History.ShowAnswered | services/agent/src/graph/history.py:11-36 | the loops compute the transcript as shown |
| History.LatestHuman | services/agent/src/graph/history.py:18-19 | the latest human message, or the start |
| History.ResultsAfter | services/agent/src/graph/history.py:29-33 | the ids of the tool messages right after a message |
| History.ShowRecent | services/agent/src/graph/history.py:39-52 | the loop computes the window |
| History.AnsweredIsComplete | services/agent/src/graph/history.py:11-36 | every tool call has a result among the tool messages right after it |
| History.NothingElseChanges | services/agent/src/graph/history.py:11-36 | every non-empty message is kept in order, and what is added is one failure result for each unanswered call |
| History.KeptIs | services/agent/src/graph/history.py:18-26 | blank replies aside, every message of the latest turn is kept as it is and every earlier one without its reasoning |
| History.AnsweredTwice | services/agent/src/graph/history.py:11-36 | doing it twice changes nothing more |
| History.WindowKeepsPairs | services/agent/src/graph/history.py:39-52 | the window is a suffix of at most the limit in which every tool result still follows its own call |
| History.RecentExactly | services/agent/src/graph/history.py:39-52 | of the last messages those from the first of the investor on, and with none of the investor's, all but the tool results they open with |
| History.RecentCutsNothing | services/agent/src/graph/history.py:39-52 | a window that opens at a human message cuts nothing exactly when everything fits |
| Compaction.FindWindowStart | services/agent/src/graph/compaction.py:57-62 | the first human message of the window, or the end |
| Compaction.WriteTranscript | services/agent/src/graph/compaction.py:71-85 | the loop writes the span's lines |
| Compaction.LinesTellWhoSpoke | services/agent/src/graph/compaction.py:71-85 | the investor's lines are exactly what the investor wrote and the desk's what the desk replied, in order |
| Compaction.ResultIsCut | services/agent/src/graph/compaction.py:82-84 | a tool result is shown with its tool's name and its first 400 characters, and not at all to the flush |
| Compaction.SpanExactly | services/agent/src/graph/compaction.py:65-68 | what is compacted is all the summary does not cover, up to the first message of the investor in the window, once that is a batch |
| Compaction.NoticeIsKept | services/agent/src/graph/chat.py:110-130 | a finished turn's last message takes the notice's text and every other is kept as appended |
| Compaction.FlushSeesNoToolOutput | services/agent/src/graph/compaction.py:71-73 | transcripts that differ only in tool results flush the same lines |
| Compaction.SummaryMovesByTurns | services/agent/src/graph/compaction.py:104-132 | over any run of turns, whatever fails, the summary never goes back, never passes the end and always ends where a turn begins |
| Compaction.FewUncovered | services/agent/src/graph/compaction.py:65-68 | after a turn whose compaction did not fail fewer messages are uncovered than the model is shown |
| Compaction.ShownIsEverything | services/agent/src/graph/chat.py:102-105 | the model is shown all that follows the summary if and only if it fits, failure results counted and empty replies left out |
| Compaction.NothingFallsBetween | services/agent/src/graph/chat.py:102-105 | at the first model call of a turn every message is covered by the summary or shown |
| Speech.SplitKeepsInk | services/api/src/api/voice/speech.py:60 | the sentences hold the text's characters in order, whitespace aside |
| Speech.SplitsAtEnds | services/api/src/api/voice/speech.py:60 | no sentence holds a place where whitespace follows one of `.`, `!`, `?` and a line end, and all but the last end in one of them |
| Speech.CutsAtBlank | services/api/src/api/voice/speech.py:61-65 | a sentence over the limit is cut at its last blank within the limit, and at the limit only if it has none there |
| Speech.PacksWhileItFits | services/api/src/api/voice/speech.py:66-70 | a sentence is added to what is pending while the two fit, else what is pending becomes a piece |
| Speech.TakeIn | services/api/src/api/voice/speech.py:61-70 | one sentence: cut while too long, then flushed or packed |
| Speech.Pieces | services/api/src/api/voice/speech.py:55-73 | it ends; every piece has 1 to limit characters; every non-whitespace character comes exactly once; in order if and only if no sentence over the limit comes after one that leaves something pending |
| Speech.TextOvertakes | services/api/src/api/voice/speech.py:60-70 | a sentence is packed too early if and only if it is over the limit and an earlier one leaves something pending |
| Speech.OvertakenText | services/api/src/api/voice/speech.py:61-65 | a text read out of order |
| Persona.FactTable.ProposeSoul | services/agent/src/db/queries/soul.py:26-62 | stores one new proposal with its text against the soul active now, or nothing while three young ones wait; every other row stays |
| Persona.FactTable.ApproveSoul | services/agent/src/db/queries/soul.py:77-102 | raises, refuses a stale proposal, or makes it active and the soul before it superseded; every other row stays |
| Persona.FactTable.RejectSoul | services/agent/src/db/queries/soul.py:105-115 | rejects what is still proposed and raises otherwise |
| Persona.FactTable.SetKeyed | services/agent/src/db/queries/facts.py:48-89 | the key's active row holds the value afterwards, and nothing is written if it did before |
| Persona.FactTable.SetMany | services/agent/src/db/queries/facts.py:92-110 | nothing is written if and only if some given key is unknown or of another kind, else each given key is written in turn |
| Persona.FactTable.Decide | services/agent/src/persona/approval.py:96-112 | goes on exactly when the id names one row that is still proposed and young enough, else nothing changes and the outcome says why; the decision acts on the table as it is by then and raises if the row is no proposal any more |
| Persona.DecidableIsWaiting | services/agent/src/persona/approval.py:66-77 | a decidable proposal counts against the cap except in the instant it turns seven days old |
| PersonaSafety.AtMostOneActive | services/agent/src/db/queries/facts.py:42-75 | in every run one active soul and one active row per key |
| PersonaSafety.ChainIsHistory | services/agent/src/db/queries/facts.py:48-75 | following `supersedes` from the active row visits exactly the rows ever active, newest first, once each, with no equal neighbours for a key |
| PersonaSafety.StaleForever | services/agent/src/db/queries/soul.py:92-95 | a proposal once stale is never applied |
| PersonaSafety.ApprovalUndoesNothingNewer | services/agent/src/db/queries/soul.py:77-102 | an approval that applies replaces the soul that was active at every moment since its proposal was stored |
| PersonaSafety.PendingCapped | services/agent/src/db/queries/soul.py:42-51 | never more than three young proposals wait |
| PersonaSafety.OthersNeverCount | services/agent/src/db/queries/soul.py:42-51 | what one user does never counts against another's cap |
| PersonaSafety.OtherSlotsStay | services/agent/src/db/queries/facts.py:106-110 | a write of several keys leaves every other slot as it was |
| PersonaSafety.GivenKeyHolds | services/agent/src/db/queries/facts.py:106-110 | every key given holds its value afterwards |
| PersonaSafety.OthersUntouched | services/agent/src/db/queries/facts.py:42-45 | one user's writes leave every row of another as it is |

## Left out

- HTTP routes, the MCP server, gateway checks, settings, health checks and deployment files: plumbing.
- LLM calls, LangGraph, embeddings, market data and speech HTTP calls: their results are arbitrary inputs.
- Prompt wording and the rendering of desk lines: a `progress` or `tool` event carries its line.
- SQL, row-level security and Redis internals: each statement, script or transaction is one atomic step.
- TTLs of the event log and the status hash and the trimming of the `jobs` stream, except the expiries in `Submission`.
- The consumer's slots, its sweep timing and its XAUTOCLAIM cursor: any pending entry may be reclaimed at any time, which covers every order they produce; that a slot is given back once per delivery is not modelled.
- `keep_claimed`: its promise, that a live task's entry is not reclaimed, is the flag `exclusive`.
- Waiting for the end of a recording after `[DONE]`: it changes nothing of the answer.
- `guard` and the cancelling of a body whose lock is lost: the proof shows that within the timing no refresh finds it lost.
- ThreadLock.BodiesNeverOverlap: the refresher and the body are steps of a state machine rather than tasks; refresh, release and the poll of `acquire` are the source's.
- `with_keepalive` and the tasks of `settle`: a quiet interval is an arrival of its own, and only the start of the recording is kept.
- ChatRelay.CallShowsItsText: the text of the agent's message is taken to be the text of its chunks, which is what the provider's client assembles.
- RedactSecrets.NoSecretSent: for text without think tags, and by `RedactTags` for tags that lie within one fragment; of a secret beside a tag that is split between fragments nothing is said.
- RedactProofs.EveryTagDropped: on secret-free text without think tags, and on the input: dropping a piece can join its neighbours, so nothing is said about tags in the output.
- RedactProofs.BufferBounded: with think tags in the text and secrets guarded nothing is said, since removing a tag can spell a secret.
- JobSafety.NeverStuck: gives one run to the ack; that some worker does reclaim the entry is left to the sweep.
- Concurrent `reject` and `approve`: `reject` takes no persona lock; each transaction is one step here, with anything between the look-up of a decision and the decision. Free-text memories share the table and are left out: they are neither active rows of a slot nor superseded.
- `check_soul` and the sentences of keyed facts: checks and wording of the text only.
- `QueuedRuns`, the revision loop of the research pipeline, setup steps, holdings and filings: easier, and separate.
