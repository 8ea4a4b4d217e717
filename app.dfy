/** The application's wiring of demand: `applyGift` adds a gift's count to
    its row through the store's `update` and then kicks the worker. The
    same "update, then kick" sequence serves the paper-changed route. */
module App {
  import opened Wrappers
  import opened Js
  import opened Config
  import opened Types
  import opened StateStore
  import opened Serial
  import opened Worker
  import Listener

  /* ---------- The demand mutator ---------- */

  /** The mutator `applyGift` passes to `update`: a known row gains `n`
      strokes of demand; an unknown row id leaves the state as it is. */
  function AddDemandTo(s: PlotterState, rowId: string, n: nat): (r: PlotterState)
    ensures rowId !in s.rows ==> r == s
    ensures rowId in s.rows ==>
      && r.rows.Keys == s.rows.Keys
      && r.rows[rowId].pendingStrokes == s.rows[rowId].pendingStrokes + n
      && r.rows[rowId].x == s.rows[rowId].x && r.rows[rowId].y == s.rows[rowId].y
      && (forall id :: id in s.rows && id != rowId ==> r.rows[id] == s.rows[id])
      && r.paperRun == s.paperRun
  {
    if rowId !in s.rows then s
    else
      var row := s.rows[rowId];
      s.(rows := s.rows[rowId := row.(pendingStrokes := row.pendingStrokes + n)])
  }

  function AddDemand(rowId: string, n: nat): (m: PlotterState -> PlotterState)
    ensures forall s: PlotterState :: m(s).rows.Keys == s.rows.Keys && m(s).paperRun == s.paperRun
    ensures forall s: PlotterState :: rowId in s.rows ==> m(s).rows[rowId].pendingStrokes == s.rows[rowId].pendingStrokes + n
  {
    s => AddDemandTo(s, rowId, n)
  }

  /** The guard of `applyGift`: a finite count above zero. */
  predicate AcceptsCount(c: Number)
    ensures AcceptsCount(c) <==> c.Int? && c.v > 0
  {
    IsFinite(c) && !AtMostZero(c)
  }

  /* ---------- Update, then kick ---------- */

  datatype CallOutcome =
    | Ignored                       // the guard returned early
    | UpdateFailed(error: StoreError) // `update` rejected: the caller's await throws
    | Kicked(tick: TickOutcome)      // the update committed and the worker was kicked

  /** The store part of a call: the calls already waiting on the mutex run
      first, then this call's update. */
  function Record(cfg: AppConfig, w: World, mutator: PlotterState -> PlotterState, writeOk: bool): (World, Reply) {
    var w1 := Drain(cfg, w);
    var u := UpdateSpec(w1.store, mutator, writeOk);
    (w1.(store := u.0), u.1)
  }

  /** `await stateStore.update(mutator); worker.kick()`: the kick happens
      only once the update has committed; a rejected update skips it. */
  function UpdateThenKick(cfg: AppConfig, processing: bool, w: World, mutator: PlotterState -> PlotterState,
                          writeOk: bool, arrivals: seq<Task>, events: seq<DeviceEvent<ReplyKind>>,
                          tickWriteOk: bool): (World, CallOutcome)
  {
    var rec := Record(cfg, w, mutator, writeOk);
    if rec.1.Failure? then (rec.0, UpdateFailed(rec.1.error))
    else
      var t := TickSpec(cfg, processing, rec.0, arrivals, events, tickWriteOk);
      (t.0, Kicked(t.1))
  }

  /** `applyGift`. */
  function ApplyGiftSpec(cfg: AppConfig, processing: bool, w: World, input: GiftApplyInput, writeOk: bool,
                         arrivals: seq<Task>, events: seq<DeviceEvent<ReplyKind>>, tickWriteOk: bool)
    : (World, CallOutcome)
  {
    if !AcceptsCount(input.count) then (w, Ignored)
    else UpdateThenKick(cfg, processing, w, AddDemand(input.rowId, input.count.v), writeOk, arrivals, events, tickWriteOk)
  }

  /* ---------- Properties ---------- */

  /** A count that is NaN, infinite, zero or negative touches neither the
      store nor the worker. */
  lemma RejectedCountChangesNothing(cfg: AppConfig, processing: bool, w: World, input: GiftApplyInput, writeOk: bool,
                                    arrivals: seq<Task>, events: seq<DeviceEvent<ReplyKind>>, tickWriteOk: bool)
    requires !IsFinite(input.count) || AtMostZero(input.count)
    ensures ApplyGiftSpec(cfg, processing, w, input, writeOk, arrivals, events, tickWriteOk) == (w, Ignored)
  {
  }

  /** An accepted gift for a known row raises that row's demand by its
      count, after the calls that were already waiting, and changes no other
      row and not the paper flag; the new state is written when the write
      succeeds. */
  lemma {:induction false} GiftRaisesDemand(cfg: AppConfig, w: World, input: GiftApplyInput, writeOk: bool)
    requires AcceptsCount(input.count)
    requires w.store.state.Some? && w.queue == [] && input.rowId in w.store.state.value.rows
    ensures var rec := Record(cfg, w, AddDemand(input.rowId, input.count.v), writeOk);
      var s := w.store.state.value; var s' := rec.0.store.state.value;
      && rec.0.store.state.Some?
      && s'.rows.Keys == s.rows.Keys
      && s'.rows[input.rowId].pendingStrokes == s.rows[input.rowId].pendingStrokes + input.count.v
      && (forall id :: id in s.rows && id != input.rowId ==> s'.rows[id] == s.rows[id])
      && s'.paperRun == s.paperRun
      && (writeOk ==> rec.0.store.durable == Some(s') && rec.1 == Success(s'))
      && rec.0.link == w.link && rec.0.paused == w.paused
  {
    DrainEmpty(cfg, w);
  }

  /** The worker is kicked only after the update committed: a kick implies
      an accepted count and a successful update, and a failed update leaves
      the serial engine and the paused flag as the store part left them. */
  lemma KickOnlyAfterCommit(cfg: AppConfig, processing: bool, w: World, input: GiftApplyInput, writeOk: bool,
                            arrivals: seq<Task>, events: seq<DeviceEvent<ReplyKind>>, tickWriteOk: bool)
    ensures var r := ApplyGiftSpec(cfg, processing, w, input, writeOk, arrivals, events, tickWriteOk);
      r.1.Kicked? ==> AcceptsCount(input.count) && Record(cfg, w, AddDemand(input.rowId, input.count.v), writeOk).1.Success?
    ensures var r := ApplyGiftSpec(cfg, processing, w, input, writeOk, arrivals, events, tickWriteOk);
      r.1.UpdateFailed? ==> !writeOk || Drain(cfg, w).store.state.None?
    ensures var r := ApplyGiftSpec(cfg, processing, w, input, writeOk, arrivals, events, tickWriteOk);
      r.1.UpdateFailed? ==> r.0.link == w.link && r.0.paused == w.paused
  {
  }

  /** `n` one-stroke gifts for `rowId`, one `update` each, with the outcome
      of each write. */
  function OneStrokeGifts(rowId: string, writes: seq<bool>): (ts: seq<Task>)
    ensures |ts| == |writes|
    ensures forall i :: 0 <= i < |ts| ==> ts[i] == UpdateTask(AddDemand(rowId, 1), writes[i])
  {
    seq(|writes|, i requires 0 <= i < |writes| => UpdateTask(AddDemand(rowId, 1), writes[i]))
  }

  /** No gift is lost: `n` one-stroke gifts for a known row that wait on the
      mutex together raise its demand by exactly `n`, whichever of their
      writes fail. */
  lemma {:induction false} GiftsAreNeverLost(st: Store, cfg: AppConfig, rowId: string, writes: seq<bool>)
    requires st.state.Some? && rowId in st.state.value.rows
    ensures var fin := RunTasks(st, cfg, OneStrokeGifts(rowId, writes)).0;
      && fin.state.Some?
      && fin.state.value.rows.Keys == st.state.value.rows.Keys
      && fin.state.value.rows[rowId].pendingStrokes == st.state.value.rows[rowId].pendingStrokes + |writes|
      && (forall id :: id in fin.state.value.rows && id != rowId ==> fin.state.value.rows[id] == st.state.value.rows[id])
  {
    var tasks := OneStrokeGifts(rowId, writes);
    forall i, s: PlotterState | 0 <= i < |tasks| && rowId in s.rows
      ensures tasks[i].mutator(s) == s.(rows := s.rows[rowId := s.rows[rowId].(pendingStrokes := s.rows[rowId].pendingStrokes + 1)])
    {
      assert tasks[i].mutator == AddDemand(rowId, 1);
      assert tasks[i].mutator(s) == AddDemandTo(s, rowId, 1);
    }
    NoLostUpdates(st, cfg, tasks, rowId);
  }

  /** A gift the listener forwards is applied exactly when its count is
      finite: a count of +Infinity passes the listener and stops here. */
  lemma ForwardedGiftApplied(m: map<string, string>, e: GiftEvent)
    requires Listener.HandleGift(m, e).Some?
    ensures AcceptsCount(Listener.HandleGift(m, e).value.count) <==> IsFinite(Listener.ResolveGiftCount(e))
  {
  }

  /* ---------- The methods ---------- */

  /** The common tail of `applyGift` and of the paper-changed route. */
  method UpdateAndKick(worker: PlotterWorker, mutator: PlotterState -> PlotterState, writeOk: bool,
                       arrivals: seq<Task>, events: seq<DeviceEvent<string>>, tickWriteOk: bool)
    returns (outcome: CallOutcome)
    requires worker.Wired()
    modifies worker, worker.store, worker.streamer
    ensures worker.processing == old(worker.processing) && worker.timerRunning == old(worker.timerRunning)
    ensures var t := UpdateThenKick(worker.config, old(worker.processing), old(worker.Snapshot()), mutator, writeOk,
                                    arrivals, HearAll(events), tickWriteOk);
      worker.Snapshot() == t.0 && outcome == t.1
  {
    worker.store.RunQueued();
    var r := worker.store.Update(mutator, writeOk);
    if r.Failure? {
      return UpdateFailed(r.error);
    }
    var t := worker.Kick(arrivals, events, tickWriteOk);
    outcome := Kicked(t);
  }

  /** `applyGift`: reject a count that is not finite and positive, else add
      it to the row and kick the worker. */
  method ApplyGift(worker: PlotterWorker, input: GiftApplyInput, writeOk: bool,
                   arrivals: seq<Task>, events: seq<DeviceEvent<string>>, tickWriteOk: bool)
    returns (outcome: CallOutcome)
    requires worker.Wired()
    modifies worker, worker.store, worker.streamer
    ensures worker.processing == old(worker.processing) && worker.timerRunning == old(worker.timerRunning)
    ensures var t := ApplyGiftSpec(worker.config, old(worker.processing), old(worker.Snapshot()), input, writeOk,
                                   arrivals, HearAll(events), tickWriteOk);
      worker.Snapshot() == t.0 && outcome == t.1
  {
    if !IsFinite(input.count) || AtMostZero(input.count) {
      return Ignored;
    }
    outcome := UpdateAndKick(worker, AddDemand(input.rowId, input.count.v), writeOk, arrivals, events, tickWriteOk);
  }
}
