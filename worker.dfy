/** The scheduler: on every tick it reads the state, picks the first row in
    configuration order that has demand, works out how many strokes still
    fit on the paper, sends them (and the end-of-run lines when the row runs
    out of room), and folds the progress back into the state. */
module Worker {
  import opened Wrappers
  import opened Config
  import opened Types
  import opened Gcode
  import opened StateStore
  import opened Serial

  /** The furthest X at which a stroke may start and still end by `xMax`. */
  function MaxStart(g: Geometry): real {
    g.xMax - g.strokeLength
  }

  lemma MulMonotone(x: real, y: real, s: real)
    requires s > 0.0
    ensures x <= y ==> x * s <= y * s
    ensures x < y ==> x * s < y * s
  {
    if x < y {
      var d := y - x;
      assert y * s == x * s + d * s;
    }
  }

  /** `Math.floor(a / s)`. */
  function FloorDiv(a: real, s: real): int
    requires s > 0.0
  {
    (a / s).Floor
  }

  /** For `a >= 0` the quotient is a count: `s` fits into `a` exactly that
      many whole times. */
  lemma FloorDivBounds(a: real, s: real)
    requires a >= 0.0 && s > 0.0
    ensures FloorDiv(a, s) >= 0
    ensures FloorDiv(a, s) as real * s <= a < FloorDiv(a, s) as real * s + s
  {
    var q := a / s;
    assert q * s == a;
    MulMonotone(q, 0.0, s);
    var n := q.Floor;
    assert n as real <= q < n as real + 1.0;
    MulMonotone(n as real, q, s);
    MulMonotone(q, (n + 1) as real, s);
    assert (n + 1) as real * s == n as real * s + s;
    assert q < (n + 1) as real;
    assert q * s < (n + 1) as real * s;
    assert a < n as real * s + s;
    assert n == FloorDiv(a, s);
  }

  /** `calculateFit`: how many strokes still fit in the row starting at
      `xStart`. None fit when even one would overrun `xMax`; otherwise the
      last fitting stroke is the last that starts by `MaxStart`. */
  function CalculateFit(g: Geometry, xStart: real): (fit: nat)
    ensures xStart > MaxStart(g) ==> fit == 0
    ensures xStart <= MaxStart(g) ==>
      && fit >= 1
      && xStart + StrokeOffset(g, fit - 1) <= MaxStart(g)
      && MaxStart(g) < xStart + StrokeOffset(g, fit)
  {
    var maxStart := MaxStart(g);
    if xStart > maxStart then 0
    else
      FloorDivBounds(maxStart - xStart, g.strokeSpacing);
      FloorDiv(maxStart - xStart, g.strokeSpacing) + 1
  }

  /** Stroke `i` of a row (counting from the current position) fits on the
      paper, its far end at most `xMax`, exactly when `i < fit`. */
  lemma FitIsExact(g: Geometry, xStart: real, i: nat)
    ensures i < CalculateFit(g, xStart) <==> xStart + StrokeOffset(g, i) + g.strokeLength <= g.xMax
  {
    var fit := CalculateFit(g, xStart);
    if i < fit {
      OffsetMonotone(g, i, fit - 1);
    } else if xStart <= MaxStart(g) {
      OffsetMonotone(g, fit, i);
    } else {
      OffsetMonotone(g, 0, i);
    }
  }

  /** Fewer strokes fit the further along the row is. */
  lemma FitShrinksAlongRow(g: Geometry, x1: real, x2: real)
    requires x1 <= x2
    ensures CalculateFit(g, x2) <= CalculateFit(g, x1)
  {
    var f2 := CalculateFit(g, x2);
    if f2 > 0 {
      FitIsExact(g, x2, f2 - 1);
      FitIsExact(g, x1, f2 - 1);
    }
  }

  /* ---------- Choosing the row ---------- */

  /** `row?.pendingStrokes > 0`. */
  predicate HasDemand(rows: map<string, RowState>, id: string) {
    id in rows && rows[id].pendingStrokes > 0
  }

  /** The position in `order` of the first row with demand, or `|order|`. */
  function FirstWithDemand(order: seq<string>, rows: map<string, RowState>): (i: nat)
    ensures i <= |order|
    ensures i < |order| ==> HasDemand(rows, order[i])
    ensures forall j :: 0 <= j < i ==> !HasDemand(rows, order[j])
    decreases |order|
  {
    if order == [] then 0
    else if HasDemand(rows, order[0]) then 0
    else
      var i := FirstWithDemand(order[1..], rows);
      assert forall j :: 1 <= j < i + 1 ==> order[j] == order[1..][j - 1];
      1 + i
  }

  /** `findNextRowId`: the first row in configuration order with demand. */
  function NextRow(order: seq<string>, rows: map<string, RowState>): (r: Option<string>)
    ensures r.Some? ==> HasDemand(rows, r.value)
    ensures r.None? <==> forall j :: 0 <= j < |order| ==> !HasDemand(rows, order[j])
    ensures r.Some? ==> exists i :: 0 <= i < |order| && order[i] == r.value &&
                                   forall j :: 0 <= j < i ==> !HasDemand(rows, order[j])
  {
    var i := FirstWithDemand(order, rows);
    if i < |order| then Some(order[i]) else None
  }

  /** The loop of `findNextRowId`. */
  method FindNextRowId(order: seq<string>, rows: map<string, RowState>) returns (r: Option<string>)
    ensures r == NextRow(order, rows)
  {
    var i := 0;
    while i < |order|
      invariant 0 <= i <= |order|
      invariant forall j :: 0 <= j < i ==> !HasDemand(rows, order[j])
      invariant FirstWithDemand(order, rows) >= i
    {
      if order[i] in rows && rows[order[i]].pendingStrokes > 0 {
        return Some(order[i]);
      }
      i := i + 1;
    }
    return None;
  }

  /* ---------- What a tick does with the chosen row ---------- */

  /** The work a tick decides on for one row: how many strokes, whether the
      paper run ends, the lines to send, and where the row will stand. */
  datatype Plan = Plan(nDo: nat, endsRun: bool, lines: seq<GLine>, newX: real)

  /** The stroke job for `n` strokes, or nothing when there are none. */
  function JobLines(g: Geometry, x: real, y: real, n: nat): seq<GLine> {
    if n > 0 then [Absolute, Millimetres] + Strokes(x, y, n, g) else []
  }

  /** The plan of `tick` for a row: never more strokes than are owed or
      than fit, and the run ends exactly when more are owed than fit. */
  function PlanFor(g: Geometry, row: RowState): (r: Plan)
    ensures r.nDo <= row.pendingStrokes && r.nDo <= CalculateFit(g, row.x)
    ensures r.endsRun <==> row.pendingStrokes > CalculateFit(g, row.x)
  {
    var fit := CalculateFit(g, row.x);
    var pending := row.pendingStrokes;
    var nDo := if pending < fit then pending else fit;
    var shouldEndRun := pending > fit && fit > 0;
    var shouldEndNoFit := pending > 0 && fit == 0;
    var endsRun := shouldEndRun || shouldEndNoFit;
    Plan(nDo, endsRun,
         JobLines(g, row.x, row.y, nDo) + (if endsRun then EndOfRunLines(g) else []),
         if nDo > 0 then row.x + StrokeOffset(g, nDo) else row.x)
  }

  /** The plan never draws more than is owed nor more than fits; the run ends
      exactly when the demand exceeds what fits; a row with demand always
      gives something to send; and when nothing fits the tick only sends the
      pen home. */
  lemma PlanBounds(g: Geometry, row: RowState)
    ensures var p := PlanFor(g, row); var fit := CalculateFit(g, row.x);
      && p.nDo <= row.pendingStrokes && p.nDo <= fit
      && (p.nDo == row.pendingStrokes || p.nDo == fit)
      && (p.endsRun <==> row.pendingStrokes > fit)
      && (row.pendingStrokes > 0 ==> p.lines != [])
      && (row.pendingStrokes > 0 && fit == 0 ==> p.lines == EndOfRunLines(g))
      && p.newX == row.x + StrokeOffset(g, p.nDo)
  {
  }

  /** Every X the plan's strokes move to lies between the row's position and
      `xMax`: the plotter is never driven off the paper. */
  lemma PlanStaysOnPaper(g: Geometry, row: RowState)
    requires PlanFor(g, row).nDo > 0
    ensures WithinX(Strokes(row.x, row.y, PlanFor(g, row).nDo, g), row.x, g.xMax)
  {
    var n := PlanFor(g, row).nDo;
    StrokesWithin(row.x, row.y, n, g);
    FitIsExact(g, row.x, n - 1);
    var lines := Strokes(row.x, row.y, n, g);
    forall k | 0 <= k < |lines|
      ensures (lines[k].RapidXYZ? ==> row.x <= lines[k].x <= g.xMax)
      ensures (lines[k].LinearX? ==> row.x <= lines[k].x <= g.xMax)
    {
    }
  }

  /** Whatever height the pen starts at, the lines of a tick for a row with
      demand leave it up. */
  lemma PlanLeavesPenUp(g: Geometry, row: RowState, z: real)
    requires row.pendingStrokes > 0
    ensures PenZ(PlanFor(g, row).lines, z) == g.zUp
  {
    var p := PlanFor(g, row);
    var job := JobLines(g, row.x, row.y, p.nDo);
    if p.endsRun {
      assert p.lines == job + EndOfRunLines(g);
      PenZAppend(job, EndOfRunLines(g), z);
    } else {
      PlanBounds(g, row);
      assert p.nDo > 0;
      assert p.lines == job + [] == [Absolute, Millimetres] + Strokes(row.x, row.y, p.nDo, g);
      PenZAppend([Absolute, Millimetres], Strokes(row.x, row.y, p.nDo, g), z);
      StrokesEndPenUp(row.x, row.y, p.nDo, g, PenZ([Absolute, Millimetres], z));
    }
  }

  /** The mutator a tick commits: the row moves on and loses the strokes
      drawn (never below zero), and an ending run asks for new paper. A row
      that has disappeared meanwhile leaves the state as it is. */
  function CommitTo(draft: PlotterState, rowId: string, plan: Plan): (r: PlotterState)
    ensures rowId !in draft.rows ==> r == draft
    ensures r.rows.Keys == draft.rows.Keys
    ensures forall id :: id in r.rows && id != rowId ==> r.rows[id] == draft.rows[id]
  {
    if rowId !in draft.rows then draft
    else
      var cur := draft.rows[rowId];
      var rows :=
        if plan.nDo > 0 then
          draft.rows[rowId := cur.(x := plan.newX,
                                   pendingStrokes := if cur.pendingStrokes >= plan.nDo then cur.pendingStrokes - plan.nDo else 0)]
        else draft.rows;
      draft.(rows := rows, paperRun := if plan.endsRun then PaperRunState(true) else draft.paperRun)
  }

  function Commit(rowId: string, plan: Plan): PlotterState -> PlotterState {
    (draft: PlotterState) => CommitTo(draft, rowId, plan)
  }

  /** The commit touches the chosen row and the paper flag and nothing else;
      it reads the row's demand at commit time, so demand added while the
      lines were being sent is kept. */
  lemma CommitEffect(draft: PlotterState, rowId: string, plan: Plan)
    ensures rowId !in draft.rows ==> CommitTo(draft, rowId, plan) == draft
    ensures rowId in draft.rows ==> var s := CommitTo(draft, rowId, plan);
      && s.rows.Keys == draft.rows.Keys
      && (forall id :: id in s.rows && id != rowId ==> s.rows[id] == draft.rows[id])
      && s.rows[rowId].y == draft.rows[rowId].y
      && s.rows[rowId].x == (if plan.nDo > 0 then plan.newX else draft.rows[rowId].x)
      && s.rows[rowId].pendingStrokes ==
           (if draft.rows[rowId].pendingStrokes >= plan.nDo
            then draft.rows[rowId].pendingStrokes - plan.nDo else 0)
      && s.paperRun.needsNewPaper == (draft.paperRun.needsNewPaper || plan.endsRun)
  {
  }

  /* ---------- The tick ---------- */

  datatype TickOutcome =
    | AlreadyProcessing
    | StateUnavailable
    | PausedForPaper
    | PlotterOffline
    | NothingPending
    | SendFailed(reason: Failure)
    | CommitFailed(error: StoreError)
    | Committed(rowId: string, plan: Plan)

  /** Everything a tick can change: the store (its value, the calls waiting
      on its mutex, the replies handed out), the serial engine, and the
      worker's paused flag. */
  datatype World = World(store: Store, queue: seq<Task>, replies: seq<Reply>, link: Link<GLine>, paused: bool)

  /** The mutex runs every waiting call in turn. */
  function Drain(cfg: AppConfig, w: World): (r: World)
    ensures r.queue == [] && r.link == w.link && r.paused == w.paused
  {
    var run := RunTasks(w.store, cfg, w.queue);
    w.(store := run.0, queue := [], replies := w.replies + run.1)
  }

  /** `tick`. The calls already waiting on the store's mutex go before the
      tick's read; `arrivals` are the calls that reach the mutex while the
      lines are being sent, and they go before the commit. `events` is what
      the device does while the lines are sent, `writeOk` whether the commit's
      write succeeds. A failure anywhere is caught: the tick just ends. */
  function TickSpec(cfg: AppConfig, processing: bool, w: World, arrivals: seq<Task>,
                    events: seq<DeviceEvent<ReplyKind>>, writeOk: bool): (r: (World, TickOutcome))
    ensures r.1 == AlreadyProcessing <==> processing
    ensures !processing ==> r.0.queue == []
    ensures r.1.SendFailed? || r.1.CommitFailed? || r.1.Committed? || r.0.link == w.link
    ensures r.1.Committed? ==> r.0.paused == r.1.plan.endsRun
  {
    if processing then (w, AlreadyProcessing)
    else
      var w1 := Drain(cfg, w);
      match GetSpec(w1.store)
      case Failure(_) => (w1, StateUnavailable)
      case Success(s) => TickOn(cfg, s, w1, arrivals, events, writeOk)
  }

  /** The tick once it holds a copy `s` of the state. */
  function TickOn(cfg: AppConfig, s: PlotterState, w: World, arrivals: seq<Task>,
                  events: seq<DeviceEvent<ReplyKind>>, writeOk: bool): (r: (World, TickOutcome))
    requires w.queue == []
    ensures r.1 == PausedForPaper <==> s.paperRun.needsNewPaper
    ensures r.0.paused == (s.paperRun.needsNewPaper || (r.1.Committed? && r.1.plan.endsRun))
    ensures r.1.Committed? ==> HasDemand(s.rows, r.1.rowId)
    ensures r.1 != AlreadyProcessing && r.1 != StateUnavailable && r.0.queue == []
    ensures r.1.SendFailed? || r.1.CommitFailed? || r.1.Committed? || r.0.link == w.link
  {
    if s.paperRun.needsNewPaper then (w.(paused := true), PausedForPaper)
    else if !w.link.portOpen && !cfg.dryRun then (w.(paused := false), PlotterOffline)
    else match NextRow(cfg.rows.order, s.rows)
      case None => (w.(paused := false), NothingPending)
      case Some(rowId) =>
        if rowId == "" then (w.(paused := false), NothingPending)
        else SendAndCommit(cfg, rowId, PlanFor(cfg.plotter, s.rows[rowId]), w.(paused := false), arrivals, events, writeOk)
  }

  /** The lines go out; the calls that arrived meanwhile run; then, if every
      line was acknowledged, the progress is committed, and the worker pauses
      if the run ended. */
  function SendAndCommit(cfg: AppConfig, rowId: string, plan: Plan, w: World, arrivals: seq<Task>,
                         events: seq<DeviceEvent<ReplyKind>>, writeOk: bool): (r: (World, TickOutcome))
    ensures r.1.SendFailed? <==> SendLinesSpec(w.link, cfg.dryRun, plan.lines, events).1.Failed?
    ensures r.0.link == SendLinesSpec(w.link, cfg.dryRun, plan.lines, events).0 && r.0.queue == []
    ensures r.1.SendFailed? || r.1.CommitFailed? || r.1 == Committed(rowId, plan)
    ensures r.0.paused == (w.paused || (r.1.Committed? && plan.endsRun))
  {
    var sent := SendLinesSpec(w.link, cfg.dryRun, plan.lines, events);
    var w2 := Drain(cfg, w.(link := sent.0, queue := w.queue + arrivals));
    if sent.1.Failed? then (w2, SendFailed(sent.1.reason))
    else CommitSpec(cfg, rowId, plan, w2, writeOk)
  }

  /** The commit: a failed write ends the tick without pausing. */
  function CommitSpec(cfg: AppConfig, rowId: string, plan: Plan, w: World, writeOk: bool): (r: (World, TickOutcome))
    ensures r.1 == Committed(rowId, plan) <==> w.store.state.Some? && writeOk
    ensures r.1.Committed? || r.1.CommitFailed?
    ensures r.0 == w.(store := r.0.store, paused := r.0.paused)
    ensures r.0.paused == (w.paused || (r.1.Committed? && plan.endsRun))
  {
    var u := UpdateSpec(w.store, Commit(rowId, plan), writeOk);
    if u.1.Failure? then (w.(store := u.0), CommitFailed(u.1.error))
    else (w.(store := u.0, paused := w.paused || plan.endsRun), Committed(rowId, plan))
  }

  /** With nothing waiting on the mutex, the tick reads the store as it is. */
  lemma DrainEmpty(cfg: AppConfig, w: World)
    requires w.queue == []
    ensures Drain(cfg, w) == w
  {
    assert w.replies + [] == w.replies;
  }

  /* ---------- Properties of a tick ---------- */

  /** A tick that starts while another is still running does nothing. */
  lemma ReentrantTickIsNoOp(cfg: AppConfig, w: World, arrivals: seq<Task>,
                            events: seq<DeviceEvent<ReplyKind>>, writeOk: bool)
    ensures TickSpec(cfg, true, w, arrivals, events, writeOk) == (w, AlreadyProcessing)
  {
  }

  /** While the paper run waits for new paper, every tick pauses the worker
      and sends nothing. */
  lemma PausedUntilPaperChanged(cfg: AppConfig, w: World, arrivals: seq<Task>,
                                events: seq<DeviceEvent<ReplyKind>>, writeOk: bool)
    requires w.queue == [] && w.store.state.Some? && w.store.state.value.paperRun.needsNewPaper
    ensures TickSpec(cfg, false, w, arrivals, events, writeOk) == (w.(paused := true), PausedForPaper)
  {
    DrainEmpty(cfg, w);
  }

  /** A tick with the plotter offline outside dry-run, or with no row
      owing strokes, sends nothing, leaves the store alone and clears the
      paused flag. */
  lemma IdleTickChangesNothing(cfg: AppConfig, w: World, arrivals: seq<Task>,
                               events: seq<DeviceEvent<ReplyKind>>, writeOk: bool)
    requires w.queue == [] && w.store.state.Some? && !w.store.state.value.paperRun.needsNewPaper
    requires (!w.link.portOpen && !cfg.dryRun) || NextRow(cfg.rows.order, w.store.state.value.rows).None?
    ensures TickSpec(cfg, false, w, arrivals, events, writeOk).0 == w.(paused := false)
    ensures TickSpec(cfg, false, w, arrivals, events, writeOk).1 ==
      (if !w.link.portOpen && !cfg.dryRun then PlotterOffline else NothingPending)
  {
    DrainEmpty(cfg, w);
  }

  /** Lines that were not all acknowledged are not committed: the row keeps
      its position and demand, so they are sent again on a later tick. */
  lemma SendFailureCommitsNothing(cfg: AppConfig, w: World, events: seq<DeviceEvent<ReplyKind>>, writeOk: bool)
    requires w.queue == []
    requires TickSpec(cfg, false, w, [], events, writeOk).1.SendFailed?
    ensures TickSpec(cfg, false, w, [], events, writeOk).0.store == w.store
    ensures !TickSpec(cfg, false, w, [], events, writeOk).0.paused
  {
    DrainEmpty(cfg, w);
    var s := w.store.state.value;
    var rowId := NextRow(cfg.rows.order, s.rows).value;
    var plan := PlanFor(cfg.plotter, s.rows[rowId]);
    var sent := SendLinesSpec(w.link, cfg.dryRun, plan.lines, events);
    DrainEmpty(cfg, w.(paused := false).(link := sent.0, queue := []));
  }

  /** The at-least-once gap: when the commit's write fails after the lines
      were acknowledged, the in-memory state already records the strokes
      while the file keeps the previous state, and the worker does not
      pause even if the run ended. */
  lemma CommitWriteFailureSplitsCopies(cfg: AppConfig, rowId: string, plan: Plan, w: World)
    requires w.store.state.Some?
    ensures var r := CommitSpec(cfg, rowId, plan, w, false);
      && r.1 == CommitFailed(StoreError.WriteFailed)
      && r.0.store.state == Some(CommitTo(w.store.state.value, rowId, plan))
      && r.0.store.durable == w.store.durable
      && r.0.paused == w.paused
  {
  }

  /** A tick without concurrent calls that commits: the chosen row had
      demand, moves on by the strokes drawn and owes that many fewer, no
      other row changes, the paper flag is raised exactly when the run
      ended, the worker pauses exactly then, and the new state is on disk. */
  lemma CommittedTickAdvancesRow(cfg: AppConfig, w: World, events: seq<DeviceEvent<ReplyKind>>, writeOk: bool)
    requires w.queue == [] && w.store.state.Some?
    requires TickSpec(cfg, false, w, [], events, writeOk).1.Committed?
    ensures var (w', out) := TickSpec(cfg, false, w, [], events, writeOk);
      var s := w.store.state.value; var rowId := out.rowId; var p := out.plan;
      && HasDemand(s.rows, rowId)
      && p == PlanFor(cfg.plotter, s.rows[rowId])
      && w'.store.state.Some? && w'.store.durable == w'.store.state
      && var s' := w'.store.state.value;
      && s'.rows.Keys == s.rows.Keys
      && s'.rows[rowId].x == s.rows[rowId].x + StrokeOffset(cfg.plotter, p.nDo)
      && s'.rows[rowId].pendingStrokes == s.rows[rowId].pendingStrokes - p.nDo
      && (forall id :: id in s'.rows && id != rowId ==> s'.rows[id] == s.rows[id])
      && s'.paperRun.needsNewPaper == p.endsRun
      && w'.paused == p.endsRun
  {
    DrainEmpty(cfg, w);
    var s := w.store.state.value;
    var rowId := NextRow(cfg.rows.order, s.rows).value;
    var plan := PlanFor(cfg.plotter, s.rows[rowId]);
    var sent := SendLinesSpec(w.link, cfg.dryRun, plan.lines, events);
    var w2 := w.(paused := false).(link := sent.0, queue := []);
    DrainEmpty(cfg, w2);
    assert TickSpec(cfg, false, w, [], events, writeOk) == SendAndCommit(cfg, rowId, plan, w.(paused := false), [], events, writeOk);
    PlanBounds(cfg.plotter, s.rows[rowId]);
    CommitEffect(s, rowId, plan);
  }

  /** Gifts that arrive while the lines are being sent are not lost: if
      each concurrent call adds one stroke to the chosen row, the committed
      demand is the demand the tick read, plus the arrivals, minus the
      strokes drawn. */
  lemma GiftsDuringSendSurvive(cfg: AppConfig, rowId: string, row: RowState, w: World, arrivals: seq<Task>,
                               events: seq<DeviceEvent<ReplyKind>>, writeOk: bool)
    requires w.queue == [] && w.store.state.Some?
    requires rowId in w.store.state.value.rows && w.store.state.value.rows[rowId] == row
    requires forall i :: 0 <= i < |arrivals| ==> arrivals[i].UpdateTask?
    requires forall i, s: PlotterState :: 0 <= i < |arrivals| && rowId in s.rows ==>
      arrivals[i].mutator(s) == s.(rows := s.rows[rowId := s.rows[rowId].(pendingStrokes := s.rows[rowId].pendingStrokes + 1)])
    requires SendAndCommit(cfg, rowId, PlanFor(cfg.plotter, row), w, arrivals, events, writeOk).1.Committed?
    ensures var w' := SendAndCommit(cfg, rowId, PlanFor(cfg.plotter, row), w, arrivals, events, writeOk).0;
      && w'.store.state.Some? && rowId in w'.store.state.value.rows
      && w'.store.state.value.rows[rowId].pendingStrokes
         == row.pendingStrokes + |arrivals| - PlanFor(cfg.plotter, row).nDo
  {
    var plan := PlanFor(cfg.plotter, row);
    var sent := SendLinesSpec(w.link, cfg.dryRun, plan.lines, events);
    assert w.queue + arrivals == arrivals;
    var w2 := Drain(cfg, w.(link := sent.0, queue := arrivals));
    NoLostUpdates(w.store, cfg, arrivals, rowId);
    var mid := w2.store.state.value;
    PlanBounds(cfg.plotter, row);
    CommitEffect(mid, rowId, plan);
  }

  /* ---------- Scenarios ---------- */

  /** A 100 mm wide sheet with 10 mm strokes every 5 mm. */
  const Sheet: Geometry := PlotterGeometry(0.0, 0.0, 100.0, 10.0, 5.0, 5.0, 0.0, 1500.0, 300.0, 0.0)

  /** A row at 85 mm owing five strokes: two fit, the row moves to 95 mm,
      three remain owed and the paper run ends. */
  lemma PartialFillEndsRun()
    ensures CalculateFit(Sheet, 85.0) == 2
    ensures var p := PlanFor(Sheet, RowState(85.0, 20.0, 5));
      p.nDo == 2 && p.endsRun && p.newX == 95.0
    ensures var s := CommitTo(PlotterState(map["a" := RowState(85.0, 20.0, 5)], PaperRunState(false)),
                              "a", PlanFor(Sheet, RowState(85.0, 20.0, 5)));
      s.rows["a"] == RowState(95.0, 20.0, 3) && s.paperRun.needsNewPaper
  {
    FitIsExact(Sheet, 85.0, 1);
    FitIsExact(Sheet, 85.0, 2);
  }

  /** A row at 91 mm owing one stroke: nothing fits, so the tick only lifts
      the pen and travels home, and asks for new paper. */
  lemma NoFitOnlyGoesHome()
    ensures CalculateFit(Sheet, 91.0) == 0
    ensures var p := PlanFor(Sheet, RowState(91.0, 20.0, 1));
      p.nDo == 0 && p.endsRun && p.lines == EndOfRunLines(Sheet)
  {
  }

  /* ---------- The worker object ---------- */

  class PlotterWorker {
    const config: AppConfig
    const store: StateStore
    const streamer: SerialStreamer<GLine>
    var timerRunning: bool
    var processing: bool
    var paused: bool

    /** The worker, the store and the streamer share one configuration. */
    predicate Wired() {
      store.config == config && streamer.dryRun == config.dryRun
    }

    ghost function Snapshot(): World
      reads this, store, streamer
    {
      World(store.Abs(), store.queue, store.replies, streamer.Abs(), paused)
    }

    constructor (store: StateStore, config: AppConfig, streamer: SerialStreamer<GLine>)
      requires store.config == config && streamer.dryRun == config.dryRun
      ensures this.store == store && this.config == config && this.streamer == streamer
      ensures Wired()
      ensures !timerRunning && !processing && !paused
    {
      this.store := store;
      this.config := config;
      this.streamer := streamer;
      timerRunning, processing, paused := false, false, false;
    }

    /** `isPaused`. */
    function IsPaused(): (r: bool)
      reads this, store, streamer
      ensures r == Snapshot().paused
    {
      paused
    }

    /** `tick`, with what the environment does during it as parameters. */
    method Tick(arrivals: seq<Task>, events: seq<DeviceEvent<string>>, writeOk: bool) returns (outcome: TickOutcome)
      requires Wired()
      modifies this`processing, this`paused, store, streamer
      ensures processing == old(processing)
      ensures var t := TickSpec(config, old(processing), old(Snapshot()), arrivals, HearAll(events), writeOk);
        Snapshot() == t.0 && outcome == t.1
    {
      if processing {
        return AlreadyProcessing;
      }
      processing := true;
      outcome := TickBody(arrivals, events, writeOk);
      processing := false;
    }

    /** The `try` block of `tick`; every early return is a normal end. */
    method TickBody(arrivals: seq<Task>, events: seq<DeviceEvent<string>>, writeOk: bool) returns (outcome: TickOutcome)
      requires Wired()
      modifies this`paused, store, streamer
      ensures var t := TickSpec(config, false, old(Snapshot()), arrivals, HearAll(events), writeOk);
        Snapshot() == t.0 && outcome == t.1
    {
      store.RunQueued();
      var read := store.GetState();
      if read.Failure? {
        return StateUnavailable;
      }
      var state := read.value;
      if state.paperRun.needsNewPaper {
        paused := true;
        return PausedForPaper;
      }
      paused := false;
      if !streamer.IsConnected() && !config.dryRun {
        return PlotterOffline;
      }
      var next := FindNextRowId(config.rows.order, state.rows);
      if next.None? || next.value == "" {
        return NothingPending;
      }
      var rowId := next.value;
      var plan := PlanRow(state.rows[rowId]);
      assert TickSpec(config, false, old(Snapshot()), arrivals, HearAll(events), writeOk)
          == SendAndCommit(config, rowId, plan, Snapshot(), arrivals, HearAll(events), writeOk);
      outcome := SendAndCommitRow(rowId, plan, arrivals, events, writeOk);
    }

    /** The middle of `tick`: how many strokes, whether the run ends, and the
      lines that say so. */
    method PlanRow(row: RowState) returns (plan: Plan)
      ensures plan == PlanFor(config.plotter, row)
    {
      var fit := CalculateFit(config.plotter, row.x);
      var pending := row.pendingStrokes;
      var nDo := if pending < fit then pending else fit;
      var shouldEndRun := pending > fit && fit > 0;
      var shouldEndNoFit := pending > 0 && fit == 0;

      var lines: seq<GLine> := [];
      var newX := row.x;
      if nDo > 0 {
        lines, newX := BuildStrokeJobGcode(row.x, row.y, nDo, config.plotter);
      }
      if shouldEndRun || shouldEndNoFit {
        lines := lines + EndOfRunLines(config.plotter);
      } else {
        assert lines == lines + [];
      }
      plan := Plan(nDo, shouldEndRun || shouldEndNoFit, lines, newX);
    }

    /** The end of `tick`: send, let the calls that arrived meanwhile run,
      commit, and pause if the run ended. */
    method SendAndCommitRow(rowId: string, plan: Plan, arrivals: seq<Task>, events: seq<DeviceEvent<string>>, writeOk: bool)
      returns (outcome: TickOutcome)
      requires Wired()
      modifies this`paused, store, streamer
      ensures var t := SendAndCommit(config, rowId, plan, old(Snapshot()), arrivals, HearAll(events), writeOk);
        Snapshot() == t.0 && outcome == t.1
    {
      ghost var w0 := Snapshot();
      var sent := streamer.SendLines(plan.lines, events);
      ghost var w1 := Snapshot();
      assert w1 == w0.(link := w1.link);
      store.SubmitAll(arrivals);
      store.RunQueued();
      assert Snapshot() == Drain(config, w1.(queue := w0.queue + arrivals));
      if sent.Failed? {
        return SendFailed(sent.reason);
      }
      outcome := CommitRow(rowId, plan, writeOk);
    }

    /** The commit at the end of `tick`. */
    method CommitRow(rowId: string, plan: Plan, writeOk: bool) returns (outcome: TickOutcome)
      requires Wired()
      modifies this`paused, store
      ensures var t := CommitSpec(config, rowId, plan, old(Snapshot()), writeOk);
        Snapshot() == t.0 && outcome == t.1
    {
      var committed := store.Update(Commit(rowId, plan), writeOk);
      if committed.Failure? {
        return CommitFailed(committed.error);
      }
      if plan.endsRun {
        paused := true;
      }
      outcome := Committed(rowId, plan);
    }

    /** `start`: arm the timer once and tick straight away. */
    method Start(arrivals: seq<Task>, events: seq<DeviceEvent<string>>, writeOk: bool) returns (outcome: Option<TickOutcome>)
      requires Wired()
      modifies this, store, streamer
      ensures timerRunning
      ensures processing == old(processing)
      ensures old(timerRunning) ==> outcome.None? && Snapshot() == old(Snapshot())
      ensures !old(timerRunning) ==>
        var t := TickSpec(config, old(processing), old(Snapshot()), arrivals, HearAll(events), writeOk);
        Snapshot() == t.0 && outcome == Some(t.1)
    {
      if timerRunning {
        return None;
      }
      timerRunning := true;
      var o := Tick(arrivals, events, writeOk);
      outcome := Some(o);
    }

    /** `stop`: disarm the timer. */
    method Stop()
      modifies this`timerRunning
      ensures !timerRunning
    {
      timerRunning := false;
    }

    /** `kick`: an extra tick outside the timer. */
    method Kick(arrivals: seq<Task>, events: seq<DeviceEvent<string>>, writeOk: bool) returns (outcome: TickOutcome)
      requires Wired()
      modifies this`processing, this`paused, store, streamer
      ensures processing == old(processing)
      ensures var t := TickSpec(config, old(processing), old(Snapshot()), arrivals, HearAll(events), writeOk);
        Snapshot() == t.0 && outcome == t.1
    {
      outcome := Tick(arrivals, events, writeOk);
    }
  }
}
