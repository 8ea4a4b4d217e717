/** The two HTTP routes that carry core behaviour: "paper changed", which
    puts every configured row back at its start offset on the fresh sheet
    and lifts the paper pause, and "simulate gift", whose request check
    admits only a non-empty row id and a positive integer count. Routing,
    JSON bodies and responses are outside the model. */
module Api {
  import opened Wrappers
  import opened Js
  import opened Config
  import opened Types
  import opened StateStore
  import opened Serial
  import opened Worker
  import opened App

  /* ---------- Paper changed ---------- */

  /** A configured row on fresh paper: back at its start offset, at its
      configured `y`, keeping the demand it had (none for a new row). */
  function ResetRow(g: Geometry, rc: RowConfig, existing: Option<RowState>): RowState {
    RowState(RowStartX(g, rc), rc.y, if existing.Some? then existing.value.pendingStrokes else 0)
  }

  /** The state the paper-changed mutator returns. */
  function PaperReset(cfg: AppConfig, s: PlotterState): (r: PlotterState)
    ensures r.rows.Keys == s.rows.Keys + cfg.rows.byId.Keys
    ensures forall id :: id in cfg.rows.byId ==>
      && r.rows[id].x == RowStartX(cfg.plotter, cfg.rows.byId[id])
      && r.rows[id].y == cfg.rows.byId[id].y
      && r.rows[id].pendingStrokes == (if id in s.rows then s.rows[id].pendingStrokes else 0)
    ensures forall id :: id in s.rows && id !in cfg.rows.byId ==> r.rows[id] == s.rows[id]
    ensures !r.paperRun.needsNewPaper
  {
    PlotterState(
      map id | id in s.rows.Keys + cfg.rows.byId.Keys ::
        if id in cfg.rows.byId then ResetRow(cfg.plotter, cfg.rows.byId[id], Lookup(s.rows, id))
        else s.rows[id],
      PaperRunState(false))
  }

  function PaperResetFn(cfg: AppConfig): PlotterState -> PlotterState {
    s => PaperReset(cfg, s)
  }

  /** The rows after the loop has reset the first `i` configured rows. */
  ghost predicate ResetUpTo(cfg: AppConfig, s: PlotterState, rows: map<string, RowState>, i: nat)
    requires i <= |cfg.rows.order|
  {
    var done := cfg.rows.order[..i];
    && (forall id :: id in rows <==> id in s.rows || id in done)
    && (forall id :: id in rows ==>
          rows[id] == if id in done then ResetRow(cfg.plotter, cfg.rows.byId[id], Lookup(s.rows, id)) else s.rows[id])
  }

  /** Resetting the next configured row extends the reset prefix by one. */
  lemma ResetStep(cfg: AppConfig, s: PlotterState, rows: map<string, RowState>, i: nat)
    requires i < |cfg.rows.order| && ResetUpTo(cfg, s, rows, i)
    ensures var id := cfg.rows.order[i];
      && Lookup(rows, id) == Lookup(s.rows, id)
      && ResetUpTo(cfg, s, rows[id := ResetRow(cfg.plotter, cfg.rows.byId[id], Lookup(s.rows, id))], i + 1)
  {
    NotYetReset(cfg, i);
    assert cfg.rows.order[..i + 1] == cfg.rows.order[..i] + [cfg.rows.order[i]];
  }

  /** Configured row ids are distinct, so the loop meets each only once. */
  lemma NotYetReset(cfg: AppConfig, i: nat)
    requires i < |cfg.rows.order|
    ensures cfg.rows.order[i] !in cfg.rows.order[..i]
  {
    var done := cfg.rows.order[..i];
    forall j | 0 <= j < i ensures done[j] != cfg.rows.order[i] {
      assert done[j] == cfg.rows.order[j];
    }
  }

  /** Once every configured row is reset, the rows are those of `PaperReset`. */
  lemma ResetDone(cfg: AppConfig, s: PlotterState, rows: map<string, RowState>)
    requires ResetUpTo(cfg, s, rows, |cfg.rows.order|)
    ensures rows == PaperReset(cfg, s).rows
  {
    assert cfg.rows.order[..|cfg.rows.order|] == cfg.rows.order;
  }

  /** The mutator of the route as it runs: for each configured row in
      order, take the existing row or a fresh one, set its `x` and `y`, store
      it; then clear the paper flag. */
  method PaperChangedMutator(cfg: AppConfig, s: PlotterState) returns (r: PlotterState)
    ensures r == PaperReset(cfg, s)
  {
    var order := cfg.rows.order;
    var rows := s.rows;
    var i := 0;
    while i < |order|
      invariant 0 <= i <= |order| && ResetUpTo(cfg, s, rows, i)
    {
      var id := order[i];
      var rc := cfg.rows.byId[id];
      var row := if id in rows then rows[id] else RowState(RowStartX(cfg.plotter, rc), rc.y, 0);
      row := row.(x := RowStartX(cfg.plotter, rc), y := rc.y);
      ResetStep(cfg, s, rows, i);
      rows := rows[id := row];
      i := i + 1;
    }
    ResetDone(cfg, s, rows);
    r := PlotterState(rows, PaperRunState(false));
  }

  /** Changing the paper twice is changing it once. */
  lemma PaperResetIdempotent(cfg: AppConfig, s: PlotterState)
    ensures PaperReset(cfg, PaperReset(cfg, s)) == PaperReset(cfg, s)
  {
    var once := PaperReset(cfg, s);
    var twice := PaperReset(cfg, once);
    assert twice.rows.Keys == once.rows.Keys;
    forall id | id in once.rows ensures twice.rows[id] == once.rows[id] {
    }
  }

  /** The reset state is shaped by the configuration, so a restart reloads
      it unchanged. */
  lemma PaperResetSurvivesReload(cfg: AppConfig, s: PlotterState)
    ensures ConfigShaped(PaperReset(cfg, s), cfg)
    ensures Merged(PaperReset(cfg, s), cfg) == PaperReset(cfg, s)
  {
    MergeFixesShaped(PaperReset(cfg, s), cfg);
  }

  /** `/paper/changed` as a whole. */
  function PaperChangedSpec(cfg: AppConfig, processing: bool, w: World, writeOk: bool,
                            arrivals: seq<Task>, events: seq<DeviceEvent<ReplyKind>>, tickWriteOk: bool)
    : (World, CallOutcome)
  {
    UpdateThenKick(cfg, processing, w, PaperResetFn(cfg), writeOk, arrivals, events, tickWriteOk)
  }

  /** Plotting resumes after a paper change: once the reset is committed
      the kicked tick does not pause for paper, and a worker that had paused
      for paper reads the cleared flag. */
  lemma {:induction false} PaperChangeResumesPlotting(cfg: AppConfig, w: World, writeOk: bool,
                                                     arrivals: seq<Task>, events: seq<DeviceEvent<ReplyKind>>, tickWriteOk: bool)
    requires Drain(cfg, w).store.state.Some?
    ensures var r := PaperChangedSpec(cfg, false, w, writeOk, arrivals, events, tickWriteOk);
      && r.1 != Kicked(PausedForPaper)
      && (writeOk <==> r.1.Kicked?)
      && (writeOk ==> !Record(cfg, w, PaperResetFn(cfg), writeOk).0.store.state.value.paperRun.needsNewPaper)
  {
    var rec := Record(cfg, w, PaperResetFn(cfg), writeOk);
    if writeOk {
      var s' := rec.0.store.state.value;
      assert s' == PaperReset(cfg, Drain(cfg, w).store.state.value);
      assert rec.0.queue == [];
      DrainEmpty(cfg, rec.0);
      var t := TickSpec(cfg, false, rec.0, arrivals, events, tickWriteOk);
      assert t == TickOn(cfg, s', rec.0, arrivals, events, tickWriteOk);
    }
  }

  /** The route: reset, commit, kick. */
  method PaperChanged(worker: PlotterWorker, writeOk: bool,
                      arrivals: seq<Task>, events: seq<DeviceEvent<string>>, tickWriteOk: bool)
    returns (outcome: CallOutcome)
    requires worker.Wired()
    modifies worker, worker.store, worker.streamer
    ensures worker.processing == old(worker.processing) && worker.timerRunning == old(worker.timerRunning)
    ensures var t := PaperChangedSpec(worker.config, old(worker.processing), old(worker.Snapshot()), writeOk,
                                      arrivals, HearAll(events), tickWriteOk);
      worker.Snapshot() == t.0 && outcome == t.1
  {
    outcome := UpdateAndKick(worker, PaperResetFn(worker.config), writeOk, arrivals, events, tickWriteOk);
  }

  /* ---------- Simulated gifts ---------- */

  /** The request check of `/simulate/gift`: a non-empty row id and a
      positive integer count. */
  predicate ValidSimulateRequest(rowId: string, count: Number)
    ensures ValidSimulateRequest(rowId, count) <==> rowId != "" && AcceptsCount(count)
  {
    rowId != "" && count.Int? && count.v > 0
  }

  /** Every simulated gift the route admits passes `applyGift`'s own count
      check, so it is never silently dropped there. */
  lemma SimulatedGiftIsApplied(cfg: AppConfig, processing: bool, w: World, rowId: string, count: Number, writeOk: bool,
                               arrivals: seq<Task>, events: seq<DeviceEvent<ReplyKind>>, tickWriteOk: bool)
    requires ValidSimulateRequest(rowId, count)
    ensures AcceptsCount(count)
    ensures ApplyGiftSpec(cfg, processing, w, GiftApplyInput(rowId, count, Simulate), writeOk, arrivals, events, tickWriteOk).1 != Ignored
  {
  }

  /** `/simulate/gift`: a rejected request (status 400) does nothing;
      otherwise the gift goes through `applyGift`. */
  method SimulateGift(worker: PlotterWorker, rowId: string, count: Number, writeOk: bool,
                      arrivals: seq<Task>, events: seq<DeviceEvent<string>>, tickWriteOk: bool)
    returns (outcome: Option<CallOutcome>)
    requires worker.Wired()
    modifies worker, worker.store, worker.streamer
    ensures worker.processing == old(worker.processing) && worker.timerRunning == old(worker.timerRunning)
    ensures !ValidSimulateRequest(rowId, count) ==> outcome.None? && worker.Snapshot() == old(worker.Snapshot())
    ensures ValidSimulateRequest(rowId, count) ==>
      var t := ApplyGiftSpec(worker.config, old(worker.processing), old(worker.Snapshot()),
                             GiftApplyInput(rowId, count, Simulate), writeOk, arrivals, HearAll(events), tickWriteOk);
      worker.Snapshot() == t.0 && outcome == Some(t.1)
  {
    if !ValidSimulateRequest(rowId, count) {
      return None;
    }
    var o := ApplyGift(worker, GiftApplyInput(rowId, count, Simulate), writeOk, arrivals, events, tickWriteOk);
    outcome := Some(o);
  }
}
