# Pen-plotter gift pipeline: a Dafny model

This project models the decision and bookkeeping core of a TikTok-gift-driven
pen plotter. Viewers send gifts. The gift map turns each gift into demand
("strokes owed") for one row of the sheet. The scheduler's ticks draw that
demand as short horizontal strokes in G-code. A serial ack engine streams
the G-code to the plotter, and progress lives in a durable state store.

The model keeps the source's structure: one module per source file, and a
class wherever the source has an object whose fields change.

- **`Worker` (worker.dfy), the scheduler.**
  - `calculateFit`, row selection and the tick plan are pure functions.
  - `PlotterWorker` is a class with `processing`, `paused` and the timer flag.
  - Its `Tick` method is proved equal to a pure `TickSpec` covering every
    early return, the send, the commit and the pause.
  - The lemmas state:
    - the fit is exact;
    - no more strokes are drawn than are owed or fit;
    - the pen is never driven past `xMax`;
    - the pen ends up;
    - a failed send commits nothing;
    - a re-entrant tick is a no-op;
    - gifts that arrive during a send are kept.
- **`Gcode` (gcode.dfy).** The stroke-job loop is a method proved against the
  `Strokes` function. Line-level lemmas cover where strokes sit, pen height and
  the X bounds.
- **`StateStore` (state_store.dfy).**
  - Default state and merge are loops, each proved equal to a value.
  - The document schema has a round-trip lemma.
  - The store is a class with `state`, `durable`, `queue` and `replies`
    fields. The promise-chain mutex is a FIFO queue of tasks, run one at a
    time, and `NoLostUpdates` is proved over it.
- **`Serial` (serial_streamer.dfy), the ack engine without a port.**
  - It keeps the pending FIFO and the `busy` flag.
  - `handleLine`, `removePending`, `rejectAll`, `sendLine` and `sendLines`
    are methods over its fields, each proved against a pure function.
  - Device replies, timer expiries, write errors and the port closing are
    explicit input events.
- **`GiftMap`, `Listener`, `App`, `Api`.** These model:
  - the gift-map load and lookup;
  - the gift-count rule and the reconnect backoff;
  - the listener's `running` guards;
  - the `applyGift` closure;
  - the paper-changed mutator;
  - the simulate-request check.
- **`Js`, `Config`, `Types`, `Wrappers`.** The JavaScript value semantics
  the code relies on: truthiness, NaN and infinities, `trim`, ASCII
  `toLowerCase`, `startsWith` and `String(n)`. Also the configuration shape
  the schema guarantees and the state's datatypes.

Numbers that measure position (x, y and the geometry) are Dafny `real`, so
they are exact. Counts and ids are `Js.Number`, which is an integer, NaN or
±Infinity.

In these places the model follows the code as written:
- `loadOrCreate` writes the state file only on the fallback path. A valid
  document is merged with the configuration and is not written back.
- Rows that are in the document but not in the configuration survive the
  merge, because the row record is spread-copied first.
- `rowStartX` is required by the configuration schema, so
  `rowStartX ?? x0` always yields `rowStartX`.
- The serial engine keeps no position tracking. There is none in the code.

## Model

| member | source | states |
|---|---|---|
| Js.Decimal | src/mapping/giftMap.ts:28 | the decimal text of a natural number is all digits, denotes the number (`DigitsValue`), and starts with 0 only for 0 itself |
| Js.DecimalInjective | src/mapping/giftMap.ts:28 | two naturals have the same decimal text exactly when they are equal |
| Js.IntToString | src/mapping/giftMap.ts:28 | an integer prints as its decimal digits, after a minus sign when negative, and the text reads back as the integer |
| Js.NumberToString | src/mapping/giftMap.ts:28 | `String(n)` reads back as `n` under the reference reader `ParseNumber`; an integer prints as `IntToString`, NaN as `NaN`, the infinities as `Infinity` and `-Infinity` |
| Js.NumberToStringInjective | src/mapping/giftMap.ts:28 | different numbers print as different text, so every numeric gift id gets a key of its own |
| Js.GiftIdKey | src/mapping/giftMap.ts:28 | the gift id 5655 is looked up under the key `5655` |
| Js.TrimStart | src/plotter/serialStreamer.ts:136 | drops exactly the leading white space: the result is a suffix, everything dropped is white space, the first kept character is not |
| Js.TrimEnd | src/plotter/serialStreamer.ts:136 | drops exactly the trailing white space, mirror image of the above |
| Js.TrimEmptyIffBlank | src/plotter/serialStreamer.ts:136-139 | a line trims to the empty string exactly when it is all white space |
| Js.LowerChar | src/mapping/giftMap.ts:19 | upper-case ASCII letters move to lower case, every other character is kept |
| Js.Lower | src/mapping/giftMap.ts:19 | lower-casing keeps the length and maps each character by `LowerChar` |
| Js.LowerIdempotent | src/mapping/giftMap.ts:35 | lower-casing a lower-cased name changes nothing |
| Config.RowStartX | src/state/stateStore.ts:36-40 | a row starts at its own `startX` when configured, else at `rowStartX` |
| Gcode.Strokes | src/plotter/gcode.ts:25-31 | `n` strokes are exactly `4n` lines |
| Gcode.StrokeAt | src/plotter/gcode.ts:26-30 | stroke `i` is lines `4i..4i+3` and starts at `xStart + i*strokeSpacing`: rapid to (x, y, zUp), plunge to zDown at plungeRate, drag to x + strokeLength at feedRate, lift to zUp |
| Gcode.BuildStrokeJobGcode | src/plotter/gcode.ts:7-34 | the job is `G90`, `G21`, then the strokes; `2 + 4n` lines and `xEnd = xStart + n*strokeSpacing` with `n = max(count, 0)` |
| Gcode.PenZAppend | src/plotter/worker.ts:89-95 | running two blocks of lines in turn leaves the pen where the second leaves it, starting from where the first left it |
| Gcode.StrokesEndPenUp | src/plotter/gcode.ts:29 | a job of at least one stroke leaves the pen at zUp whatever its height before |
| Gcode.StrokesWithin | src/plotter/gcode.ts:26-30 | every X target of the strokes lies between the first start and the last stroke's end |
| Gcode.EndOfRunLines | src/plotter/gcode.ts:36-41 | two lines: a pure lift to zUp at the plunge rate, which leaves the pen up from any height, then a rapid move to (x0, y0) |
| StateStore.CreateDefaultState | src/state/stateStore.ts:34-50 | one row per configured id, at its start offset and configured `y`, with no demand; paper not exhausted |
| StateStore.DefaultState | src/state/stateStore.ts:34-50 | the default state has exactly the configured rows, each at its configured `y` and owing nothing; paper not exhausted |
| StateStore.Merged | src/state/stateStore.ts:52-69 | configured rows keep loaded `x` and demand and take configured `y`; missing configured rows get the default row; unconfigured rows and the paper flag are kept |
| StateStore.MergeStateWithConfig | src/state/stateStore.ts:52-69 | the loop over the configured rows returns `Merged` |
| StateStore.MergeFixesShaped | src/state/stateStore.ts:52-69 | a state that already has every configured row at its configured `y` is left unchanged by the merge |
| StateStore.MergeIdempotent | src/state/stateStore.ts:52-69 | every merge result is configuration-shaped, so merging twice equals merging once |
| StateStore.DefaultShaped | src/state/stateStore.ts:34-50 | the default state has exactly the configured rows, each at its configured `y` |
| StateStore.Validate | src/state/stateStore.ts:8-19 | a read document is accepted exactly when the paper flag is present and every demand is a non-negative integer; the accepted state carries the document's values |
| StateStore.DocumentRoundTrip | src/state/stateStore.ts:92-93 | a state written as a document reads back as the same state |
| StateStore.LoadFallsBackToDefault | src/state/stateStore.ts:98-102 | an unreadable or invalid document makes the supplied default the state, and the file holds it when the write succeeds |
| StateStore.LoadSpec | src/state/stateStore.ts:89-105 | after a load the store holds a state and returns it on success; a valid document loads as its merge with the configuration (`Merged`) and leaves the file as it was; the load fails only when the document is unusable and the default's write fails |
| StateStore.GetSpec | src/state/stateStore.ts:107-114 | succeeds exactly when a state is loaded, returning it; otherwise "not initialized" |
| StateStore.UpdateSpec | src/state/stateStore.ts:116-126 | before a load nothing changes and the call fails; otherwise the mutator's result is the state; the call succeeds exactly when the write does, and only then does the file change |
| StateStore.RestartRestoresDurable | src/state/stateStore.ts:89-97 | reloading what the store last wrote gives back exactly that state |
| StateStore.RunTasks | src/state/stateStore.ts:21-32 | every queued call runs and gets a reply, in order; the first reply is the first task's own |
| StateStore.RunTasksAppend | src/state/stateStore.ts:21-32 | running a queue in two parts equals running it whole, replies concatenated |
| StateStore.NoLostUpdates | src/state/stateStore.ts:24-31 | `n` queued one-stroke updates raise a row's demand by exactly `n` and change nothing else, whichever writes fail |
| StateStore.StateStore.constructor | src/state/stateStore.ts:79-87 | a new store has no state, no file, no waiting calls |
| StateStore.StateStore.LoadOrCreate | src/state/stateStore.ts:89-105 | merge a valid document without writing it back; otherwise store the default and write it |
| StateStore.StateStore.GetState | src/state/stateStore.ts:107-114 | the current state, or "state not initialized" before any load |
| StateStore.StateStore.Update | src/state/stateStore.ts:116-126 | fails and changes nothing before a load; otherwise the mutator's result becomes the state even when the write then fails |
| StateStore.StateStore.Submit | src/state/stateStore.ts:24-31 | a call joins the end of the mutex queue |
| StateStore.StateStore.SubmitAll | src/state/stateStore.ts:24-31 | several calls join the end of the queue in the order given |
| StateStore.StateStore.Run | src/state/stateStore.ts:89-126 | one call holding the mutex leaves the store and returns the reply that `RunTask` gives |
| StateStore.StateStore.RunQueued | src/state/stateStore.ts:21-32 | the queue is drained in order, and the store and the reply log are what `RunTasks` gives |
| Serial.Classify | src/plotter/serialStreamer.ts:135-161 | a line is blank exactly when it is all white space; an error reply carries the trimmed, non-empty text |
| Serial.ClassifyMeaning | src/plotter/serialStreamer.ts:135-161 | a reply that is not blank is an ack iff its trimmed lower-cased text starts with `ok`, an error iff it starts with `error` but not `ok` |
| Serial.OkVariantsAreAcks | src/plotter/serialStreamer.ts:141-142 | `ok` is an acknowledgement |
| Serial.UpperCaseAckWithReturn | src/plotter/serialStreamer.ts:136-142 | `OK` followed by a carriage return is an acknowledgement |
| Serial.RemoveFirst | src/plotter/serialStreamer.ts:163-168 | removing an id that is not pending changes nothing |
| Serial.RemoveFirstAt | src/plotter/serialStreamer.ts:163-168 | removing cuts out exactly the first occurrence and keeps the rest in order |
| Serial.HandleReply | src/plotter/serialStreamer.ts:135-161 | with a line pending, an ack takes the oldest entry off the queue and resolves it, and an error reply takes it off and rejects it with the reply's trimmed text; anything else, or any reply with nothing pending, changes nothing; nothing but the queue and the settlement log moves |
| Serial.AcksResolveInOrder | src/plotter/serialStreamer.ts:141-148 | `n` acks resolve the `n` oldest pending lines in sending order and touch nothing else |
| Serial.NoiseSettlesNothing | src/plotter/serialStreamer.ts:135-161 | blank and unrecognised replies, however many, leave the queue and settlements alone |
| Serial.AwaitKeeps | src/plotter/serialStreamer.ts:113-133 | waiting for a line keeps the written lines, the busy flag and the id counter, and uses no more events than it was given |
| Serial.AwaitEmptiesQueue | src/plotter/serialStreamer.ts:113-133 | a lone pending line leaves the queue whatever happens; it succeeds only by being resolved, and fails only by being rejected with the reason the wait reports |
| Serial.AwaitErrorRejects | src/plotter/serialStreamer.ts:151-157 | an error reply to the awaited line rejects it with the device's text, takes it off the queue and ends the wait with that failure |
| Serial.SendAllWritesInOrder | src/plotter/serialStreamer.ts:103-111 | a batch writes a prefix of its lines in order, none twice: all of them on success, at least one on failure; each line written takes one id |
| Serial.SendAllSettlesOwnLines | src/plotter/serialStreamer.ts:105-107 | from an empty queue a batch leaves it empty, and a successful batch resolved exactly its own lines in order |
| Serial.SendAllStopsAtFirstFailure | src/plotter/serialStreamer.ts:105-107 | from an empty queue a failed batch stops at the first line not acknowledged: the last line written is the one rejected, with the batch's reason, and every line before it was resolved in order |
| Serial.SendLinesFlags | src/plotter/serialStreamer.ts:89-111 | dry-run succeeds and changes nothing; a closed port fails "not connected" and a busy engine fails "busy" without change; otherwise `busy` is clear on return |
| Serial.SendLinesSpec | src/plotter/serialStreamer.ts:89-111 | whatever happens, `busy` is as it was before the call once the call returns |
| Serial.StaleAckResolvesNextLine | src/plotter/serialStreamer.ts:119-147 | an `ok` arriving after its line timed out resolves the next batch's line |
| Serial.SerialStreamer.constructor | src/plotter/serialStreamer.ts:13-22 | a new engine is closed, idle, with nothing pending |
| Serial.SerialStreamer.IsConnected | src/plotter/serialStreamer.ts:24-26 | reports whether the engine's port is open |
| Serial.SerialStreamer.Connect | src/plotter/serialStreamer.ts:28-65 | skipped in dry-run and when open; otherwise the port opens or the open error is returned |
| Serial.SerialStreamer.Disconnect | src/plotter/serialStreamer.ts:67-87 | skipped in dry-run and when closed; a successful close rejects every waiting line and marks the port closed |
| Serial.SerialStreamer.PortClose | src/plotter/serialStreamer.ts:46-49 | the close handler rejects all waiting lines with "connection closed" |
| Serial.SerialStreamer.HandleLine | src/plotter/serialStreamer.ts:135-161 | the engine moves exactly as `HandleReply` on the classified line |
| Serial.SerialStreamer.FindIndex | src/plotter/serialStreamer.ts:164 | the first position holding the id, or -1 exactly when it is absent |
| Serial.SerialStreamer.RemovePending | src/plotter/serialStreamer.ts:163-168 | the queue becomes `RemoveFirst` of the old queue |
| Serial.SerialStreamer.RejectAll | src/plotter/serialStreamer.ts:170-175 | the queue empties and every entry is rejected, oldest first |
| Serial.SerialStreamer.Expire | src/plotter/serialStreamer.ts:119-129 | a timed-out or failed write leaves the queue and is rejected |
| Serial.SerialStreamer.AwaitLine | src/plotter/serialStreamer.ts:118-132 | waiting consumes events exactly as `Await` does, returning its outcome and the unused events |
| Serial.SerialStreamer.SendLine | src/plotter/serialStreamer.ts:113-133 | a new entry is pushed, the line written, and the wait runs; `busy` is untouched |
| Serial.SerialStreamer.SendLines | src/plotter/serialStreamer.ts:89-111 | the engine and result are those of `SendLinesSpec` |
| Worker.FloorDivBounds | src/plotter/worker.ts:148 | for a non-negative numerator the floor quotient counts the whole spacings that fit |
| Worker.CalculateFit | src/plotter/worker.ts:142-149 | 0 past `xMax - strokeLength`; otherwise at least 1, the last counted stroke starts by `xMax - strokeLength` and one more would not |
| Worker.FitIsExact | src/plotter/worker.ts:142-149 | stroke `i` from the current position ends within `xMax` exactly when `i < fit` |
| Worker.FitShrinksAlongRow | src/plotter/worker.ts:142-149 | the fit never grows as `x` grows |
| Worker.FirstWithDemand | src/plotter/worker.ts:131-140 | the position of the first configured row with demand, every earlier one having none |
| Worker.NextRow | src/plotter/worker.ts:131-140 | the chosen row has demand and every row before it in configuration order has none; none is chosen exactly when no configured row has demand |
| Worker.FindNextRowId | src/plotter/worker.ts:131-140 | the loop returns `NextRow` |
| Worker.PlanFor | src/plotter/worker.ts:73-95 | a tick never plans more strokes than are owed or than fit, and the run ends exactly when more are owed than fit |
| Worker.PlanBounds | src/plotter/worker.ts:73-95 | `nDo` is the smaller of demand and fit; the run ends iff demand exceeds fit; a row with demand always yields lines; with no fit only the end-of-run lines |
| Worker.PlanStaysOnPaper | src/plotter/worker.ts:73-90 | every X a tick's strokes move to lies between the row's `x` and `xMax` |
| Worker.PlanLeavesPenUp | src/plotter/worker.ts:79-95 | a tick's lines for a row with demand leave the pen up |
| Worker.CommitTo | src/plotter/worker.ts:103-117 | the commit mutator keeps the row ids and every other row; a row that has gone leaves the state as it is |
| Worker.CommitEffect | src/plotter/worker.ts:103-119 | the commit moves the chosen row to `newX`, lowers its demand at commit time by `nDo` but never below zero, raises the paper flag if the run ended, and changes nothing else; a row that has gone leaves the state as it is |
| Worker.TickSpec | src/plotter/worker.ts:43-129 | a tick is a no-op exactly when one is already running; otherwise it drains the mutex queue, touches the serial engine only when it sends, and after a commit is paused exactly when the run ended |
| Worker.TickOn | src/plotter/worker.ts:50-123 | with the state in hand the tick pauses for paper exactly when the flag is up, is paused afterwards exactly then or when a committed run ended, commits only a row with demand, and sends nothing unless it reaches the send |
| Worker.SendAndCommit | src/plotter/worker.ts:101-123 | the engine ends as the send leaves it; the tick reports a send failure exactly when the send failed, else the commit's outcome for this row and plan |
| Worker.CommitSpec | src/plotter/worker.ts:103-123 | the commit succeeds exactly when a state is loaded and the write succeeds; only the store and `paused` change, and `paused` is raised only by a committed run end |
| Worker.ReentrantTickIsNoOp | src/plotter/worker.ts:44-47 | a tick during a tick changes nothing |
| Worker.PausedUntilPaperChanged | src/plotter/worker.ts:50-54 | with the paper flag up, a tick sets `paused` and sends nothing |
| Worker.IdleTickChangesNothing | src/plotter/worker.ts:56-66 | with the plotter offline outside dry-run, or no row owing strokes, a tick sends nothing, leaves the store alone, clears `paused` and reports why |
| Worker.SendFailureCommitsNothing | src/plotter/worker.ts:101-125 | a failed send leaves the store unchanged and the worker unpaused |
| Worker.CommitWriteFailureSplitsCopies | src/plotter/worker.ts:103-123 | a failed commit write leaves memory advanced, the file unchanged, and the worker unpaused |
| Worker.CommittedTickAdvancesRow | src/plotter/worker.ts:101-123 | a committed tick moves only the chosen row by `nDo` strokes, lowers its demand by `nDo`, and raises the paper flag and `paused` exactly when the run ended; the new state is on disk |
| Worker.GiftsDuringSendSurvive | src/plotter/worker.ts:101-119 | one-stroke gifts arriving during the send stay in the committed demand |
| Worker.PartialFillEndsRun | src/plotter/worker.ts:73-119 | on a 100 mm sheet with 10 mm strokes every 5 mm, a row at 85 owing 5 draws 2, moves to 95, owes 3 and ends the run |
| Worker.NoFitOnlyGoesHome | src/plotter/worker.ts:73-95 | a row at 91 fits nothing, so the tick sends only the end-of-run lines |
| Worker.PlotterWorker.constructor | src/plotter/worker.ts:8-18 | a new worker is idle, unpaused, with no timer |
| Worker.PlotterWorker.IsPaused | src/plotter/worker.ts:35-37 | reports the worker's paused flag |
| Worker.PlotterWorker.Tick | src/plotter/worker.ts:43-129 | `processing` is as before the call, and store, engine and `paused` move exactly as `TickSpec` |
| Worker.PlotterWorker.TickBody | src/plotter/worker.ts:49-123 | the `try` block moves the world exactly as `TickSpec` on a tick not already running |
| Worker.PlotterWorker.PlanRow | src/plotter/worker.ts:73-95 | the computed `nDo`, run end, lines and `newX` are `PlanFor` of the row |
| Worker.PlotterWorker.SendAndCommitRow | src/plotter/worker.ts:101-123 | send, run the calls that arrived, commit: exactly `SendAndCommit` |
| Worker.PlotterWorker.CommitRow | src/plotter/worker.ts:103-123 | update with the commit mutator; pause if the run ended and the commit succeeded |
| Worker.PlotterWorker.Start | src/plotter/worker.ts:20-26 | arms the timer once and ticks; a second start does nothing |
| Worker.PlotterWorker.Stop | src/plotter/worker.ts:28-33 | disarms the timer |
| Worker.PlotterWorker.Kick | src/plotter/worker.ts:39-41 | one tick outside the timer |
| GiftMap.LoadedKeys | src/mapping/giftMap.ts:15-22 | the loaded map holds exactly the record's keys and their lower-case forms, nothing from an earlier load |
| GiftMap.LastWriterWins | src/mapping/giftMap.ts:17-20 | a key holds the value of the last entry that writes it, verbatim or lower-cased |
| GiftMap.VerbatimAndLowerCase | src/mapping/giftMap.ts:17-20 | an entry no other entry collides with is found both verbatim and lower-cased |
| GiftMap.LoadedMap | src/mapping/giftMap.ts:12-22 | every value in the loaded map is the row id of some entry of the record |
| GiftMap.Resolve | src/mapping/giftMap.ts:26-42 | a truthy id match wins; otherwise a row is found iff the exact name or, when the name is absent, its lower-case form maps to a non-empty row id; the result is always a non-empty mapped value |
| GiftMap.NameResolvesInAnyCase | src/mapping/giftMap.ts:34-39 | any spelling that lower-cases like a mapped name finds that name's row |
| GiftMap.EmptyExactMatchHidesAlias | src/mapping/giftMap.ts:35-36 | an exact match holding the empty string blocks the lower-case fallback |
| GiftMap.GiftMapStore.constructor | src/mapping/giftMap.ts:4-10 | a new store has an empty map |
| GiftMap.GiftMapStore.Load | src/mapping/giftMap.ts:12-24 | the map is replaced by `LoadedMap` of the record |
| GiftMap.GiftMapStore.ResolveRowId | src/mapping/giftMap.ts:26-42 | a resolved row id is non-empty and is one of the map's values |
| Listener.ResolveGiftCount | src/tiktok/listener.ts:122-136 | the count is truthy: a finished streak's repeats first, then the gift count, then the repeats of an event that says nothing about streaks, else 1 |
| Listener.InStreakEventCountsOne | src/tiktok/listener.ts:122-136 | an in-progress streak event without a gift count counts 1 |
| Listener.HandleGift | src/tiktok/listener.ts:103-120 | forwards iff the gift maps to a row and its count is above zero; the forwarded count is a positive integer or +Infinity |
| Listener.NextBackoff | src/tiktok/listener.ts:96 | at most 30000 and at most double, and either double or the cap |
| Listener.BackoffClosedForm | src/tiktok/listener.ts:90-101 | after `k` failures the delay is `min(1000 * 2^k, 30000)` |
| Listener.BackoffBounded | src/tiktok/listener.ts:90-101 | the delay stays within 1000..30000 and never shrinks during a streak |
| Listener.CapReachedAfterFive | src/tiktok/listener.ts:96 | from the fifth failure on, the delay is 30000 |
| Listener.UniqueId | src/tiktok/listener.ts:40-41 | the user name when set, else the room id; empty exactly when both are |
| Listener.TikTokListener.constructor | src/tiktok/listener.ts:9-19 | not running, backoff 1000, no client, no timers |
| Listener.TikTokListener.Start | src/tiktok/listener.ts:21-27 | does nothing while running; otherwise runs and makes one attempt |
| Listener.TikTokListener.Stop | src/tiktok/listener.ts:29-33 | not running, no client |
| Listener.TikTokListener.Connect | src/tiktok/listener.ts:35-80 | nothing when stopped or without user name or room id; success resets the backoff to 1000; failure schedules a reconnect |
| Listener.TikTokListener.HandleDisconnect | src/tiktok/listener.ts:82-88 | a running listener schedules a reconnect; a stopped one does nothing |
| Listener.TikTokListener.ScheduleReconnect | src/tiktok/listener.ts:90-101 | arms a timer with the current backoff and moves the backoff to `NextBackoff`; nothing once stopped |
| App.AddDemandTo | src/index.ts:43-51 | a known row gains the count and nothing else changes; an unknown row id leaves the state as it is |
| App.AddDemand | src/index.ts:43-51 | the mutator keeps the row ids and the paper flag and raises a known row's demand by the count |
| App.AcceptsCount | src/index.ts:39-41 | a count passes `applyGift`'s guard exactly when it is a positive integer |
| App.RejectedCountChangesNothing | src/index.ts:39-41 | a NaN, infinite, zero or negative count touches neither store nor worker |
| App.GiftRaisesDemand | src/index.ts:43-51 | an accepted gift raises its row's demand by the count, changes no other row or paper flag, and is on disk when the write succeeds |
| App.KickOnlyAfterCommit | src/index.ts:43-57 | the worker is kicked only after an accepted count's update succeeded; a failed update leaves the worker and engine alone |
| App.GiftsAreNeverLost | src/index.ts:43-51 | `n` queued one-stroke gifts raise the row's demand by exactly `n` |
| App.ForwardedGiftApplied | src/index.ts:39-41 | a gift forwarded by the listener is applied iff its count is finite |
| App.UpdateAndKick | src/index.ts:43-57 | update through the mutex, then kick only if it committed: exactly `UpdateThenKick` |
| App.ApplyGift | src/index.ts:38-58 | the guard, the update and the kick move the world exactly as `ApplyGiftSpec`; `processing` and the timer are as before |
| Api.PaperReset | src/http/api.ts:68-83 | every configured row moves to its start offset and configured `y`, keeping its demand (0 if new); other rows are kept; the paper flag is cleared |
| Api.PaperChangedMutator | src/http/api.ts:70-83 | the loop over the configured rows returns `PaperReset` |
| Api.PaperResetIdempotent | src/http/api.ts:70-83 | changing the paper twice equals changing it once |
| Api.PaperResetSurvivesReload | src/http/api.ts:70-83 | the reset state is configuration-shaped and reloads unchanged |
| Api.PaperChangeResumesPlotting | src/http/api.ts:68-86 | after a paper change the kick happens iff the write succeeded, and the kicked tick does not pause for paper |
| Api.PaperChanged | src/http/api.ts:68-86 | the route moves the world exactly as `PaperChangedSpec`; `processing` and the timer are as before |
| Api.ValidSimulateRequest | src/http/api.ts:13-16 | a request is admitted exactly when the row id is non-empty and the count passes `applyGift`'s guard |
| Api.SimulatedGiftIsApplied | src/http/api.ts:13-16 | every admitted simulated gift passes `applyGift`'s count check |
| Api.SimulateGift | src/http/api.ts:145-159 | a rejected request changes nothing; an admitted one is `applyGift`; `processing` and the timer are as before |

## Left out

- Float-to-text formatting (`fmt`, `toFixed`): a G-code line is a command with its exact numeric arguments.
- Floating-point rounding: positions are exact reals, so `Math.floor` is exact.
- Counts that are finite but not integers: `Js.Number` has no such values, so the schema's `.int()` rejection is not modelled.
- `String(n)` for `n >= 10^21` and non-ASCII case mapping in `toLowerCase`.
- All I/O is left out. The model takes its outcome as a parameter or an event instead:
  - reading and writing the state file, including `atomicWrite` (whether a write succeeds is a parameter);
  - reading the gift-map file and the config file, and `JSON.parse` (the parsed record or document is the input);
  - the serial port and its line parser;
  - timers (a line's timeout is a `TimerFired` event, and ticks are explicit calls);
  - the TikTok client, its cookie headers and the network.
- Logging.
- Promise interleavings. The mutex is a FIFO queue, and calls arriving during a send are an explicit `arrivals` parameter. Other interleavings are not modelled.
- The Express app, static serving, JSON responses and zod parsing, other than the simulate-request check and the two routes modelled.
- The `/plotter/connect`, `/plotter/disconnect`, `/plotter/gcode`, `/config/dry-run`, `/mapping/reload` and `/status` routes, and `src/web/app.js`.
- `setDryRun`, `noTiktokRun` and position reports: the code calls or reads them but they do not exist in it.
- Mutators that return nothing or throw: all three source mutators return the state, so `mutator(...) ?? this.state` always takes the mutator's result.
- Worker.PlotterWorker.TickBody: leaves out the `!row` return (src/plotter/worker.ts:69-71) and the empty-lines return (src/plotter/worker.ts:97-99). A chosen row always exists and always yields lines; `Worker.NextRow` and `Worker.PlanBounds` prove this.
- Worker.PlotterWorker.Start: the `setInterval` timer is a flag. Later timer ticks are calls to `Tick`.
- Serial.SendLinesSpec: device events left over after a batch are dropped, including a `PortClosed`; they belong to the next call, which the model does not chain.
- Serial.SerialStreamer.SendLine: the `!this.port` check (src/plotter/serialStreamer.ts:114-116) is not modelled, because `sendLines` only calls it with the port open.
- Serial.SerialStreamer.Connect: the port's own `error` events after opening only log, so they are not modelled.
- GiftMap.GiftMapStore.Load: mapping-file values are taken to be strings, as the source's type cast assumes.
