/** The part of the application configuration the core reads, in the shape
    the configuration schema guarantees after it has been loaded. Loading it
    (file and environment I/O and the schema parse) is outside the model. */
module Config {
  import opened Wrappers

  /** Plotter geometry and feeds, all in millimetres (or mm/min). */
  datatype PlotterGeometry = PlotterGeometry(
    x0: real, y0: real, xMax: real,
    strokeLength: real, strokeSpacing: real,
    zUp: real, zDown: real,
    feedRate: real, plungeRate: real,
    rowStartX: real)

  /** Geometry as the schema admits it: stroke length, stroke spacing and
      both feed rates are positive, and `rowStartX` is present. */
  type Geometry = g: PlotterGeometry
    | g.strokeLength > 0.0 && g.strokeSpacing > 0.0 && g.feedRate > 0.0 && g.plungeRate > 0.0
    witness PlotterGeometry(0.0, 0.0, 0.0, 1.0, 1.0, 0.0, 0.0, 1.0, 1.0, 0.0)

  /** One configured row: its fixed `y` and an optional own start offset. */
  datatype RowConfig = RowConfig(y: real, startX: Option<real>)

  /** The configured rows: a JavaScript record, i.e. a map together with the
      order in which `Object.keys`/`Object.entries` enumerate it. */
  datatype RowRecord = RowRecord(order: seq<string>, byId: map<string, RowConfig>)

  ghost predicate WellFormedRows(t: RowRecord) {
    && (forall i, j :: 0 <= i < j < |t.order| ==> t.order[i] != t.order[j])
    && (forall id :: id in t.byId <==> id in t.order)
  }

  type Rows = t: RowRecord | WellFormedRows(t) witness RowRecord([], map[])

  datatype AppConfig = AppConfig(plotter: Geometry, rows: Rows, dryRun: bool)

  /** `rowStartX ?? x0`: `rowStartX` is required, so it is always the one used. */
  function StartXDefault(g: Geometry): real {
    g.rowStartX
  }

  /** `rowConfig.startX ?? startXDefault`: where a row starts on fresh paper. */
  function RowStartX(g: Geometry, rc: RowConfig): (x: real)
    ensures rc.startX.Some? ==> x == rc.startX.value
    ensures rc.startX.None? ==> x == g.rowStartX
  {
    match rc.startX
    case Some(v) => v
    case None => StartXDefault(g)
  }
}

/** The persistent plotter state: one progress record per row and the global
    paper flag. */
module Types {
  import opened Wrappers
  import opened Js

  /** `x` is where the next stroke starts, `y` the row's fixed position and
      `pendingStrokes` the demand not yet drawn. */
  datatype RowState = RowState(x: real, y: real, pendingStrokes: nat)

  datatype PaperRunState = PaperRunState(needsNewPaper: bool)

  datatype PlotterState = PlotterState(rows: map<string, RowState>, paperRun: PaperRunState)

  /** A gift as the TikTok client reports it; every field may be absent. */
  datatype GiftEvent = GiftEvent(
    giftId: Option<Number>, giftName: Option<string>,
    repeatCount: Option<Number>, giftCount: Option<Number>, repeatEnd: Option<bool>)

  datatype GiftSource = TikTok | Simulate

  /** Demand to add to one row. */
  datatype GiftApplyInput = GiftApplyInput(rowId: string, count: Number, source: GiftSource)
}
